# LinkAI SEO Command Centre — a Dafny model of its client core

The SEO Command Centre is a Next.js dashboard that signs users in through the
LinkAI single sign-on platform and shows SEO data per website ("tenant").
This project models its client-side core in Dafny and proves properties of
that model:

- the session store and the `authApi` helpers: auth data, the cached profile,
  sign-in state (`Storage`, `Api`);
- request building in `apiRequest`: headers, URL, body and the 401 handling
  (`Api`);
- the SSO login and logout URLs, with `encodeURIComponent` as ECMA-262
  section 19.2.6 defines it (`AuthConfig`, `Uri`);
- the tenant provider: the website list, the active site and the site id
  rewrite in a path (`Tenant`);
- the auth provider: how a profile is resolved from the database outcomes,
  the session events, sign-out and refresh (`AuthContext`);
- the route guard (`AuthGuard`), the SSO callback page (`SsoCallback`) and the
  login page (`LoginPage`);
- the layout shell and page titles (`LayoutContent`), the sidebar's navigation
  (`Sidebar`) and the user menu (`UserMenu`);
- the pages whose logic goes beyond layout: settings (`Settings`), content
  (`Content`), keywords (`Keywords`) and briefings (`Briefings`).

Code that keeps state becomes a class whose methods say, in `ensures`, that
the new state equals a pure step function applied to the old state. This
covers React state with `sessionStorage`, the tenant and auth providers, the
callback page and the pages. The lemmas about those step functions carry
the properties. Expression code becomes functions with named results.

The model abstracts the world outside the browser state:

- The outcomes of Supabase and backend calls are parameters: the session, the
  profile query, the company lookup, the auth events, and the list and insert
  results.
- Navigation (`router.push`/`replace`, `window.location.href`) is a returned
  target path.
- Timers are entries in a list of pending timers, fired explicitly.
- `sessionStorage` is a `map<string, string>` held by a `SessionStore` object
  that the components share.

`Strings` models the JavaScript string operations the code relies on:

- `||` on optional strings;
- `split`, `join` and `filter(Boolean)`;
- `indexOf`, `startsWith` and `includes`;
- ASCII `toUpperCase` and `toLowerCase`.

`Json` is a JSON string encoding that is just enough to store and read back a
profile.

Two places where the model follows the code rather than its description:

- `signOut` catches a failure of the remote sign-out. In that case nothing
  local is cleared and the caller still continues to the logout URL
  (`AuthContext.AfterSignOut`).
- The auth provider does not await the profile fetch of the initial session.
  `loading` is cleared before the profile arrives, so the model treats the
  resolution as a separate later step (`AuthContext.AuthProvider.ProfileResolved`).

## Model

| member | source | states |
|---|---|---|
| Storage.SessionStore.GetItem | src/lib/api.ts:37-39 | `getItem` gives a value exactly when the key is stored, and then the stored value |
| Storage.SessionStore.SetItem | src/lib/api.ts:48-50 | `setItem` stores the value under the key and leaves every other key as it was |
| Storage.SessionStore.RemoveItem | src/lib/api.ts:58 | `removeItem` drops exactly that key |
| Api.ValueOr | src/lib/api.ts:37-39 | `getItem(key) \|\| ''`: the stored value, or "" when the key is absent |
| Api.GetAuthData | src/lib/api.ts:34-41 | each field is the value stored under its key, or "" when the key is absent |
| Api.IsAuthenticatedIff | src/lib/api.ts:64-67 | signed in iff both user id and token are stored and non-empty |
| Api.IsAuthenticated | src/lib/api.ts:64-67 | `!!(userId && authToken)` over the stored auth data; characterised by IsAuthenticatedIff |
| Api.AfterSetAuthData | src/lib/api.ts:46-51 | each truthy field is written under its key; a falsy field leaves its key as it was; no other key changes |
| Api.SetThenGetAuthData | src/lib/api.ts:46-51 | reading back after a write gives each written field; writing user id and token signs in |
| Api.SetAuthData | src/lib/api.ts:46-51 | the store becomes `AfterSetAuthData` of the old store |
| Api.AfterClearAuthData | src/lib/api.ts:56-59 | the four session keys are removed, every other key and value is kept |
| Api.ClearAuthData | src/lib/api.ts:56-59 | the loop over the key list removes exactly the four session keys |
| Api.ClearedIsSignedOut | src/lib/api.ts:56-67 | after clearing, the auth data is empty, nobody is signed in and no profile is cached |
| Api.ClearIdempotent | src/lib/api.ts:56-59 | clearing twice is clearing once |
| Api.ProfileRoundTrip | src/lib/api.ts:72-82 | parsing a serialised profile gives back the same profile, every optional field included |
| Api.SerializeProfile | src/lib/api.ts:73 | `JSON.stringify(profile)` with the fields in declaration order and `null` for absent ones; inverted by ParseProfile (ProfileRoundTrip) |
| Api.ParseProfile | src/lib/api.ts:81 | `JSON.parse` of that form, none for unreadable text; the left inverse of SerializeProfile (ProfileRoundTrip) |
| Api.StringFieldRoundTrip | src/lib/api.ts:73 | one serialised string field parses back to its value and the rest of the text |
| Api.NullableFieldRoundTrip | src/lib/api.ts:73 | one serialised optional field parses back to its value and the rest of the text |
| Api.AfterSetUserProfile | src/lib/api.ts:72-74 | the profile key is added or overwritten and no other key changes |
| Api.SetUserProfile | src/lib/api.ts:72-74 | the store becomes `AfterSetUserProfile` of the old store |
| Api.GetUserProfile | src/lib/api.ts:79-82 | an absent or empty entry reads as no profile |
| Api.UserProfileRoundTrip | src/lib/api.ts:72-82 | storing a profile and reading it back gives the same profile |
| Api.BodyOf | src/lib/api.ts:142 | a request body is present iff the data is truthy |
| Api.Stringify | src/lib/api.ts:142 | `JSON.stringify(data)` of a defined value; a string reads back through TextBodyRoundTrip |
| Api.PostInit | src/lib/api.ts:139-144 | method POST with the body of BodyOf; stated by TextBodyRoundTrip and FalsyDataNoBody |
| Api.PutInit | src/lib/api.ts:149-154 | method PUT with the same body as POST; stated by TextBodyRoundTrip and FalsyDataNoBody |
| Api.TextBodyRoundTrip | src/lib/api.ts:139-154 | a non-empty text body is sent JSON-encoded and decodes back to itself; POST and PUT encode alike |
| Api.FalsyDataNoBody | src/lib/api.ts:142 | falsy data (undefined, null, false, 0, "") sends no body with POST or PUT |
| Api.Headers | src/lib/api.ts:99-107 | `Content-Type` defaults to JSON unless the caller sets it; a non-empty token adds `Bearer <token>` and overrides a caller `Authorization`; other caller headers are kept |
| Api.RequestUrl | src/lib/api.ts:109 | a truthy base is prefixed to the endpoint, otherwise the endpoint alone |
| Api.BuildRequest | src/lib/api.ts:97-114 | the request keeps the caller's method and body, with the headers and URL above and the stored token |
| Api.AuthenticatedRequestCarriesToken | src/lib/api.ts:97-107 | a signed-in store always sends `Authorization: Bearer <stored token>` |
| Api.Call | src/lib/api.ts:92-127 | a 2xx response succeeds with the store unchanged; 401 clears the session keys and navigates to login; any other status fails with "API call failed: " + status text |
| AuthConfig.AppBaseUrl | src/lib/auth-config.ts:11 | the configured URL if non-empty, else `http://localhost:3000`; never empty |
| AuthConfig.LoginUrlWithPath | src/lib/auth-config.ts:45-52 | with a path, the callback URL carries `?redirect_path=<encoded path>` and the whole callback URL is encoded into `redirect_url` |
| AuthConfig.LoginUrlWithoutPath | src/lib/auth-config.ts:46-51 | an absent or empty path gives the callback URL with no query |
| AuthConfig.LoginUrlSingleQuery | src/lib/auth-config.ts:45-52 | a login URL has exactly one `?` and no `&`, whatever the path: the nested URL cannot leak parameters |
| AuthConfig.CallbackUrl | src/lib/auth-config.ts:46-49 | the callback route under the app base, with `?redirect_path=` and the encoded path only for a non-empty path; stated by LoginUrlWithPath and LoginUrlWithoutPath |
| AuthConfig.GetLoginUrl | src/lib/auth-config.ts:45-52 | the SSO base with the encoded callback URL as `redirect_url`; its shape is stated by LoginUrlWithPath, LoginUrlWithoutPath and LoginUrlSingleQuery |
| AuthConfig.GetLogoutUrl | src/lib/auth-config.ts:57-59 | the SSO logout path with the encoded app base as `redirect_url`; its shape is stated by LogoutUrlSingleQuery |
| AuthConfig.LogoutUrlSingleQuery | src/lib/auth-config.ts:57-59 | the logout URL has exactly one `?` and no `&` |
| AuthConfig.NoDelimiters | src/lib/auth-config.ts:48 | an encoded component never contains `?` or `&` |
| AuthConfig.EncodedTail | src/lib/auth-config.ts:51 | appending an encoded component keeps a single `?` and no `&` |
| AuthConfig.ConstantsDistinct | src/lib/auth-config.ts:17-32 | the four routes are distinct and so are the four storage keys |
| Uri.HexDigit | src/lib/auth-config.ts:48 | a value below 16 becomes an upper-case hexadecimal digit |
| Uri.Utf8 | src/lib/auth-config.ts:48 | a code point becomes one to four bytes, each below 256 |
| Uri.PercentBytes | src/lib/auth-config.ts:48 | each byte becomes three characters of `%XX` |
| Uri.EncodeChar | src/lib/auth-config.ts:48 | one character encodes to unreserved or percent-escape characters only |
| Uri.EncodeURIComponent | src/lib/auth-config.ts:48 | the encoding contains only unreserved characters and percent escapes |
| Uri.EncodeUnescaped | src/lib/auth-config.ts:48 | a string of unreserved characters encodes to itself |
| Uri.EncodeAppend | src/lib/auth-config.ts:48 | encoding distributes over concatenation |
| Strings.Param | src/app/auth/login/page.tsx:18 | `searchParams.get(name)`: a value iff the parameter is present, and then its value |
| Strings.OrElse | src/lib/api.ts:37 | `a \|\| d` on an optional string: `a` when it is non-empty, else `d` |
| Strings.FirstTruthy | src/components/tenant/TenantContext.tsx:77 | `a \|\| b \|\| null`: a value iff either is non-empty, the first non-empty one |
| Strings.Split | src/components/tenant/TenantContext.tsx:30 | `split` gives at least one piece and no piece holds the separator |
| Strings.JoinSplit | src/components/tenant/TenantContext.tsx:30-35 | joining the pieces of a split with its separator gives the string back |
| Strings.SplitJoin | src/components/tenant/TenantContext.tsx:30-35 | splitting a join of separator-free pieces gives the pieces back |
| Strings.NonEmpty | src/components/tenant/TenantContext.tsx:30 | `filter(Boolean)` keeps only non-empty strings, and every non-empty one; order and repetitions by NonEmptyAppend and NonEmptySingle |
| Strings.NonEmptyAppend | src/components/tenant/TenantContext.tsx:30 | filtering a concatenation is concatenating the filtered parts, so order and repetitions are kept |
| Strings.NonEmptySingle | src/components/tenant/TenantContext.tsx:30 | a single part is kept iff it is non-empty |
| Strings.IndexOf | src/components/tenant/TenantContext.tsx:31 | `indexOf` gives -1 iff absent, else the first position holding the value |
| Strings.IncludesIff | src/app/layout-content.tsx:25-30 | `includes` holds iff the text occurs at some position |
| Strings.Upper | src/components/auth/UserProfile.tsx:25 | `toUpperCase` keeps the length and maps each character (ASCII) |
| Strings.Lower | src/components/seocc/pages/ContentClient.tsx:21 | `toLowerCase` keeps the length and maps each character (ASCII) |
| Strings.NatToString | src/components/seocc/pages/ContentClient.tsx:7-9 | a number prints as one or more decimal digits, with a leading `0` only for zero |
| Strings.NatToStringValue | src/components/seocc/pages/ContentClient.tsx:7-9 | the printed digits denote the number printed |
| Strings.NatToStringInjective | src/components/seocc/pages/ContentClient.tsx:7-9 | distinct numbers print differently |
| Strings.NumberedLabel | src/components/seocc/pages/ContentClient.tsx:7-8 | a label `prefix + n` starts with the prefix and its digits denote `n` |
| Strings.NumberedLabelInjective | src/components/seocc/pages/ContentClient.tsx:7-8 | labels with one prefix are equal only for equal numbers |
| Json.Expect | src/lib/api.ts:81 | a literal is consumed iff the text starts with it, leaving the rest |
| Json.StringRoundTrip | src/lib/api.ts:73-81 | a string literal parses back to the same string and the rest of the text |
| Json.NullableRoundTrip | src/lib/api.ts:73-81 | an optional string literal parses back to the same value |
| Json.LowerHex | src/lib/api.ts:73 | a lower-case hexadecimal digit whose value is the given number |
| Json.HexValue | src/lib/api.ts:81 | the value of a hexadecimal digit of either case, below 16 |
| Json.EscapeChar | src/lib/api.ts:73 | a character of 0x20 or above other than `"` and `\` stands for itself; the others get a backslash escape |
| Json.ParseEscape | src/lib/api.ts:81 | one escape sequence is read, consuming at least one character |
| Json.UnicodeEscapeParsed | src/lib/api.ts:73-81 | a `\u00XX` escape of a control character reads back as that character |
| Json.EscapeCharParsed | src/lib/api.ts:73-81 | every escaped character, control characters included, reads back as itself |
| Tenant.ToOption | src/components/tenant/TenantContext.tsx:58 | a picker entry keeps id, domain and status; its name is the website name, or the domain when the name is empty |
| Tenant.WebsiteOptions | src/components/tenant/TenantContext.tsx:58 | null data gives no entries; otherwise one entry per website, in order |
| Tenant.SiteSlot | src/components/tenant/TenantContext.tsx:31-33 | a slot exists iff the first `s` segment is followed by a non-empty segment, and it is that next position |
| Tenant.ReplaceSiteInPath | src/components/tenant/TenantContext.tsx:28-39 | a missing or empty path gives `/`; every result starts with `/` |
| Tenant.RewriteParts | src/components/tenant/TenantContext.tsx:31-38 | the target built from the segments always starts with `/` |
| Tenant.RewriteSegments | src/components/tenant/TenantContext.tsx:30-35 | with a slot, the result's segments are the path's segments with only the slot replaced |
| Tenant.RewriteIsClean | src/components/tenant/TenantContext.tsx:35 | the rewritten path has no `//` and no trailing `/` |
| Tenant.NoSlotGoesToDashboard | src/components/tenant/TenantContext.tsx:38 | a path without a site slot goes to the new site's dashboard |
| Tenant.RootGoesToDashboard | src/components/tenant/TenantContext.tsx:38 | `/` goes to the new site's dashboard |
| Tenant.SwitchKeepsPage | src/components/tenant/TenantContext.tsx:28-36 | switching site on `/s/<id>/<page>` keeps the page |
| Tenant.ReplaceTwice | src/components/tenant/TenantContext.tsx:28-39 | switching to one site and then another is switching straight to the second |
| Tenant.AfterLoadWebsites | src/components/tenant/TenantContext.tsx:55-69 | loading always ends |
| Tenant.FirstWebsiteDefault | src/components/tenant/TenantContext.tsx:58-63 | with no route id and no active site, the first website becomes active and is stored; the list is the mapped data |
| Tenant.ListFailureKeepsState | src/components/tenant/TenantContext.tsx:64-68 | a failed listing changes nothing but loading |
| Tenant.RouteIdSurvivesLoad | src/components/tenant/TenantContext.tsx:60 | with a site id in the route, loading never changes the active site or the store |
| Tenant.AfterSyncFromRoute | src/components/tenant/TenantContext.tsx:74-83 | the sync ends loading and leaves the list alone |
| Tenant.SyncPrecedence | src/components/tenant/TenantContext.tsx:75-81 | the route id wins over the stored id; with neither, nothing but loading changes |
| Tenant.SyncAgreesWithStore | src/components/tenant/TenantContext.tsx:78-81 | after a sync that found an id, the active site and the stored id agree |
| Tenant.AfterSetWebsiteId | src/components/tenant/TenantContext.tsx:85-87 | choosing a site makes it active and stores it; other keys, the list and loading are kept |
| Tenant.SetWebsiteIdIdempotent | src/components/tenant/TenantContext.tsx:85-89 | choosing the same site twice is choosing it once |
| Tenant.ChosenSiteSurvivesSync | src/components/tenant/TenantContext.tsx:74-87 | a chosen site is still active after a sync without a route id |
| Tenant.TenantProvider.LoadWebsites | src/components/tenant/TenantContext.tsx:55-69 | the provider's state becomes `AfterLoadWebsites` of the old state |
| Tenant.TenantProvider.SyncFromRoute | src/components/tenant/TenantContext.tsx:74-83 | the provider's state becomes `AfterSyncFromRoute` of the old state |
| Tenant.TenantProvider.SetWebsiteId | src/components/tenant/TenantContext.tsx:85-89 | the state becomes `AfterSetWebsiteId` and the navigation target is the rewritten path |
| AuthContext.FetchCompanyName | src/components/auth/AuthContext.tsx:48-69 | a name only when the lookup returned a row with a non-empty name; errors and throws give none |
| AuthContext.FallbackProfile | src/components/auth/AuthContext.tsx:92-98 | the profile built from the session user, with each field's chain of defaults |
| AuthContext.MappedProfile | src/components/auth/AuthContext.tsx:123-133 | the profile mapped from a database row, with each field's defaults and the looked-up company name preferred |
| AuthContext.BasicProfile | src/components/auth/AuthContext.tsx:153-159 | the last-resort profile: email-based name, company `unknown`, role `user` |
| AuthContext.ResolveProfile | src/components/auth/AuthContext.tsx:74-165 | a query error gives the fallback profile, a row the mapped one (looking up the company only when needed), a throw the basic one, and no row changes nothing |
| AuthContext.ResolvedProfileComplete | src/components/auth/AuthContext.tsx:92-159 | every resolved profile has a non-empty email, name, company id and role, and a non-empty id when the session user has one |
| AuthContext.CompanyLookupIrrelevant | src/components/auth/AuthContext.tsx:117-120 | the company lookup matters only for a row with a company id and no company name |
| AuthContext.FailedLookupKeepsRowName | src/components/auth/AuthContext.tsx:117-130 | a failed lookup leaves the row's own company name |
| AuthContext.UserOf | src/components/auth/AuthContext.tsx:202 | `session?.user ?? null` |
| AuthContext.ApplyResolution | src/components/auth/AuthContext.tsx:103-109 | a resolved profile is set and cached; the company id is written when wanted and non-empty; no other key is added, removed or changed |
| AuthContext.ResolutionStored | src/components/auth/AuthContext.tsx:103-104 | the cached profile reads back as the resolved one |
| AuthContext.ApplyResolutionIdempotent | src/components/auth/AuthContext.tsx:103-145 | applying the same resolution twice is applying it once |
| AuthContext.EmptyQueryChangesNothing | src/components/auth/AuthContext.tsx:115 | a query with neither error nor row leaves the state as it was |
| AuthContext.ThrowKeepsCompanyId | src/components/auth/AuthContext.tsx:149-164 | on a throw the stored company id is not touched |
| AuthContext.ResolvedWritesCompanyId | src/components/auth/AuthContext.tsx:106-109 | after an error or a row the stored company id is the profile's |
| AuthContext.AfterInstallProfile | src/components/auth/AuthContext.tsx:36-40 | installing a profile signs out the in-memory user and session, sets the profile and ends loading |
| AuthContext.AfterDemoMount | src/components/auth/AuthContext.tsx:27-41 | the mount installs the fixed demo profile |
| AuthContext.DemoProfileStored | src/components/auth/AuthContext.tsx:29-36 | the demo profile reads back from the store |
| AuthContext.AfterInitialSession | src/components/auth/AuthContext.tsx:200-222 | a session stores its id and token; without one a cached profile is restored; an unreadable cache throws before loading ends |
| AuthContext.AfterAuthEvent | src/components/auth/AuthContext.tsx:225-249 | every event sets the session and ends loading |
| AuthContext.SignedInStep | src/components/auth/AuthContext.tsx:232-240 | the sign-in branch keeps user, session and loading |
| AuthContext.SignedOutStep | src/components/auth/AuthContext.tsx:241-245 | the sign-out branch keeps user, session and loading |
| AuthContext.SignedInStoresSession | src/components/auth/AuthContext.tsx:232-240 | after a sign-in event the user is signed in in the store and the resolved profile is set |
| AuthContext.SignedInStepStores | src/components/auth/AuthContext.tsx:234-240 | the sign-in branch stores id and token, sets the resolved profile and caches it |
| AuthContext.SignedOutClears | src/components/auth/AuthContext.tsx:241-245 | after a sign-out event the store is cleared and no profile is set |
| AuthContext.OtherEventsKeepProfile | src/components/auth/AuthContext.tsx:229-247 | any other event changes only the session, the user and loading |
| AuthContext.AfterSignOut | src/components/auth/AuthContext.tsx:179-196 | a failed remote sign-out changes nothing; otherwise user, session and profile are cleared |
| AuthContext.SignOutMatchesSignedOutEvent | src/components/auth/AuthContext.tsx:179-196 | a successful sign-out ends in the same state as a sign-out event |
| AuthContext.AfterRefresh | src/components/auth/AuthContext.tsx:170-174 | without a session user id nothing happens; otherwise the profile is resolved again |
| AuthContext.RefreshIdempotent | src/components/auth/AuthContext.tsx:170-174 | refreshing twice with the same outcomes is refreshing once |
| AuthContext.StepsKeepConsistent | src/components/auth/AuthContext.tsx:201-202 | every step keeps `user` equal to the session's user |
| AuthContext.RequireAuthRedirect | src/components/auth/AuthContext.tsx:280-289 | the hook sends the browser to login iff loading is over and there is no user |
| AuthContext.AuthProvider.MountDemo | src/components/auth/AuthContext.tsx:27-41 | the provider's state becomes `AfterDemoMount` |
| AuthContext.AuthProvider.InstallProfile | src/components/auth/AuthContext.tsx:36-40 | the provider's state becomes `AfterInstallProfile` |
| AuthContext.AuthProvider.Apply | src/components/auth/AuthContext.tsx:103-145 | the provider's state becomes `ApplyResolution` |
| AuthContext.AuthProvider.InitialSession | src/components/auth/AuthContext.tsx:200-222 | the state becomes `AfterInitialSession`; a profile fetch starts iff there is a session |
| AuthContext.AuthProvider.ProfileResolved | src/components/auth/AuthContext.tsx:212 | the unawaited fetch's result is applied once it arrives |
| AuthContext.AuthProvider.OnAuthEvent | src/components/auth/AuthContext.tsx:225-249 | the provider's state becomes `AfterAuthEvent` |
| AuthContext.AuthProvider.SetSession | src/components/auth/AuthContext.tsx:229-230 | session and user are set from the event |
| AuthContext.AuthProvider.SignedIn | src/components/auth/AuthContext.tsx:232-240 | the state becomes `SignedInStep` |
| AuthContext.AuthProvider.SignedOutReset | src/components/auth/AuthContext.tsx:241-245 | the state becomes `SignedOutStep` |
| AuthContext.AuthProvider.SignOut | src/components/auth/AuthContext.tsx:179-196 | the provider's state becomes `AfterSignOut` |
| AuthContext.AuthProvider.RefreshProfile | src/components/auth/AuthContext.tsx:170-174 | the provider's state becomes `AfterRefresh` |
| AuthGuard.AuthHint | src/components/auth/AuthGuard.tsx:35-40 | the hint holds iff the store could be read and holds a non-empty user id and token |
| AuthGuard.Render | src/components/auth/AuthGuard.tsx:55-67 | the fallback shows before mount, while loading without a hint, and without a user or hint |
| AuthGuard.RenderChildrenIff | src/components/auth/AuthGuard.tsx:55-70 | children show iff mounted and either hinted or loaded with a user |
| AuthGuard.Guard.Show | src/components/auth/AuthGuard.tsx:55-70 | what the mounted guard renders, by Render over its mount and hint state |
| AuthGuard.GuardRedirect | src/components/auth/AuthGuard.tsx:43-52 | the browser goes to the login URL for `redirectTo \|\| pathname` iff loading is over and there is no user |
| AuthGuard.HintedGuardStillRedirects | src/components/auth/AuthGuard.tsx:43-70 | a hint with no user shows the children and still redirects |
| AuthGuard.UseAuthGuard | src/components/auth/AuthGuard.tsx:97-110 | the hook reports the user and loading, is authenticated iff there is a user, and redirects like the guard |
| AuthGuard.HookRedirectsOnlyUnauthenticated | src/components/auth/AuthGuard.tsx:101-109 | the hook never redirects an authenticated user and always redirects once loading is over without one |
| AuthGuard.Guard.Mount | src/components/auth/AuthGuard.tsx:33-41 | after mount the guard is mounted and its hint is read from the store, or false when reading throws |
| SsoCallback.ExtractTokens | src/app/auth/sso-callback/page.tsx:34-46 | tokens come from the query; the fragment replaces both only when the query has no access token |
| SsoCallback.Complete | src/app/auth/sso-callback/page.tsx:49 | both tokens present and non-empty; decides the branch in MissingTokensFail and CompleteTokensSubscribeThenSet |
| SsoCallback.FragmentOverridesRefresh | src/app/auth/sso-callback/page.tsx:40-46 | a query refresh token is lost when the fragment is used and has none |
| SsoCallback.CrashMessage | src/app/auth/sso-callback/page.tsx:134 | an unexpected error shows its message, or "Onbekende fout" |
| SsoCallback.SuccessTarget | src/app/auth/sso-callback/page.tsx:101 | the `redirect_path` parameter when non-empty, else `/` |
| SsoCallback.AfterHandle | src/app/auth/sso-callback/page.tsx:26-140 | handling the callback never writes the store itself; an unexpected error fails with its message and schedules the login redirect, without subscribing |
| SsoCallback.CrashEndsAtLogin | src/app/auth/sso-callback/page.tsx:131-140 | after an unexpected error, whatever the tokens, the only navigation is to the login route |
| SsoCallback.MissingTokensFail | src/app/auth/sso-callback/page.tsx:49-61 | without both tokens the page fails with the exact message and schedules the login redirect, subscribing to nothing |
| SsoCallback.CompleteTokensSubscribeThenSet | src/app/auth/sso-callback/page.tsx:68-118 | with both tokens the page subscribes and then asks for the session with exactly those tokens |
| SsoCallback.CallbackUpdate | src/app/auth/sso-callback/page.tsx:84-94 | the store update carries the user id, the token and the metadata company id if it is a string |
| SsoCallback.AfterCallbackEvent | src/app/auth/sso-callback/page.tsx:72-75 | only a sign-in event with a session, while subscribed, changes anything |
| SsoCallback.SignedInSucceeds | src/app/auth/sso-callback/page.tsx:84-109 | a sign-in stores the session, shows success and schedules the redirect to the success target, unsubscribing first |
| SsoCallback.AfterRejected | src/app/auth/sso-callback/page.tsx:119-128 | a rejected session fails with its message, unsubscribes and schedules the login redirect |
| SsoCallback.RejectedIgnoresEvents | src/app/auth/sso-callback/page.tsx:119-123 | after a rejection later events change nothing |
| SsoCallback.AfterFire | src/app/auth/sso-callback/page.tsx:57-59 | a fired timer leaves the pending list, unsubscribes if it must and then navigates |
| SsoCallback.MissingTokensEndAtLogin | src/app/auth/sso-callback/page.tsx:49-61 | with tokens missing, firing the timer ends at the login route |
| SsoCallback.CallbackPage.Handle | src/app/auth/sso-callback/page.tsx:26-140 | the page state becomes `AfterHandle` |
| SsoCallback.CallbackPage.OnAuthEvent | src/app/auth/sso-callback/page.tsx:71-112 | the page state becomes `AfterCallbackEvent` |
| SsoCallback.CallbackPage.OnSetSessionRejected | src/app/auth/sso-callback/page.tsx:119-129 | the page state becomes `AfterRejected` |
| SsoCallback.CallbackPage.FireTimer | src/app/auth/sso-callback/page.tsx:57-59 | the page state becomes `AfterFire` |
| LoginPage.MountRedirect | src/app/auth/login/page.tsx:16-21 | the page navigates on mount iff signed in, to `redirect` if non-empty, else `/` |
| LoginPage.LoginTarget | src/app/auth/login/page.tsx:23-29 | the button goes to the login URL for `redirect`, else for the current path |
| LoginPage.RedirectPathIsNotRead | src/app/auth/login/page.tsx:18 | the page does not read `redirect_path`, the name the SSO URL uses |
| LoginPage.LoginFromLoginPage | src/app/auth/login/page.tsx:24 | pressing login on the bare login page asks the SSO platform to return to the login page |
| LayoutContent.FirstMatch | src/app/layout-content.tsx:25-30 | the first keyword present in the path, or none |
| LayoutContent.SiteTitleIsFirstMatch | src/app/layout-content.tsx:24-32 | a site title is the first present keyword's title, else `SEO Command Center` |
| LayoutContent.SiteTitle | src/app/layout-content.tsx:24-32 | the chain of `includes` tests for a `/s/` route; equal to the first-match reference by SiteTitleIsFirstMatch |
| LayoutContent.LegacyTitle | src/app/layout-content.tsx:34-48 | the fixed legacy paths have non-empty titles |
| LayoutContent.Capitalize | src/app/layout-content.tsx:51 | the first character is upper-cased and the rest kept |
| LayoutContent.CapitalizeAll | src/app/layout-content.tsx:51 | every segment is capitalised |
| LayoutContent.PageTitle | src/app/layout-content.tsx:21-54 | `/s/` paths get the site title, legacy paths their fixed title, other paths the default title; a missing path is `/` |
| LayoutContent.MissingPathIsDashboard | src/app/layout-content.tsx:22 | a missing or empty path is titled `Dashboard` |
| LayoutContent.DashboardWins | src/app/layout-content.tsx:25 | any site path containing `/dashboard` is titled `Dashboard` |
| LayoutContent.SiteIdCanShadowTitle | src/app/layout-content.tsx:25-26 | the title test also matches inside the site id: `/s/dashboards/content` is titled `Dashboard` |
| LayoutContent.DefaultTitleSegments | src/app/layout-content.tsx:49-52 | other paths are their capitalised segments joined with ` / ` |
| LayoutContent.DefaultTitle | src/app/layout-content.tsx:49-52 | the path without its leading `/`, split on `/`, capitalised and joined with ` / `, or `Pagina` when empty; stated by DefaultTitleSegments |
| LayoutContent.DefaultTitleNeverFallsBack | src/app/layout-content.tsx:22-52 | through `pathname \|\| '/'` the default branch always has a non-empty path, so `Pagina` is never the title given |
| LayoutContent.SidebarCompanyId | src/app/layout-content.tsx:70 | the profile company id, or `unknown` |
| LayoutContent.GreetingName | src/app/layout-content.tsx:75 | profile name, else profile email, else user email, else `Gebruiker` |
| LayoutContent.ShowBack | src/app/layout-content.tsx:79 | the back button shows iff the path is not `/` |
| LayoutContent.Layout | src/app/layout-content.tsx:57-90 | auth pages render bare; every other page gets the guarded shell with the title, back button, company id and greeting above |
| LayoutContent.IsAuthPage | src/app/layout-content.tsx:57-61 | a page is an auth page iff its path starts with `/auth/`; the routes are covered by AuthRoutesAreBare |
| LayoutContent.AuthRoutesAreBare | src/app/layout-content.tsx:57-61 | the callback, login and unauthorised routes render bare |
| LayoutContent.MissingPathShowsBack | src/app/layout-content.tsx:22-79 | a missing path is titled like `/` but still shows the back button |
| Sidebar.DefaultId | src/components/layout/sidebar.tsx:38 | the active site, else the first website's id, else `oranje`; never empty |
| Sidebar.GoTarget | src/components/layout/sidebar.tsx:40-42 | the pushed path is `/s/<default id><path>` |
| Sidebar.NoWebsiteGoesToFallback | src/components/layout/sidebar.tsx:38-42 | with no site and no websites the menu goes to `/s/oranje<path>` |
| Sidebar.MenuPagesAreSegments | src/components/layout/sidebar.tsx:89-102 | every menu page is a single path segment |
| Sidebar.MenuTargetSurvivesSiteSwitch | src/components/layout/sidebar.tsx:89-102 | switching site while on a menu page stays on that page of the new site |
| Sidebar.AfterGo | src/components/layout/sidebar.tsx:41 | `go` activates the default site only when none is active |
| Sidebar.GoActivatesTarget | src/components/layout/sidebar.tsx:38-42 | after `go` the active site is the one in the pushed path and the placeholder is gone |
| Sidebar.SelectHidesPlaceholder | src/components/layout/sidebar.tsx:66-69 | choosing a site in the picker removes the placeholder |
| Sidebar.ShowPlaceholder | src/components/layout/sidebar.tsx:69 | the placeholder option shows iff no site is active; stated by GoActivatesTarget and SelectHidesPlaceholder |
| Sidebar.Go | src/components/layout/sidebar.tsx:39-43 | the tenant becomes `AfterGo`; the navigations are the site switch (only when no site was active) and then the menu target |
| Sidebar.OnSelect | src/components/layout/sidebar.tsx:67 | a picker change chooses that site and navigates to the rewritten path |
| UserMenu.DisplayName | src/components/auth/UserProfile.tsx:20 | profile name, else user email, else `Gebruiker`; never empty |
| UserMenu.Visible | src/components/auth/UserProfile.tsx:18 | the menu renders iff there is a user |
| UserMenu.FirstChars | src/components/auth/UserProfile.tsx:23-24 | one character per non-empty word, its first, in order |
| UserMenu.Initials | src/components/auth/UserProfile.tsx:21-26 | at most two characters: the upper-cased first characters of the first non-empty words |
| UserMenu.OneWordInitial | src/components/auth/UserProfile.tsx:21-26 | a one-word name gives its upper-cased first letter |
| UserMenu.TwoWordInitials | src/components/auth/UserProfile.tsx:21-26 | a name of two or more words gives the first letters of the first two |
| UserMenu.CompanyLine | src/components/auth/UserProfile.tsx:50-54 | the line shows iff company name or id is non-empty, preferring the name |
| UserMenu.Logout | src/components/auth/UserProfile.tsx:28-32 | logout signs out and then goes to the SSO logout URL |
| Settings.CompanyIdOf | src/components/seocc/pages/SettingsClient.tsx:76 | the profile's company id, "" without a profile |
| Settings.AfterLoad | src/components/seocc/pages/SettingsClient.tsx:77-80 | loading ends in every case; the rows are replaced only by a successful listing |
| Settings.NoCompanyChangesNothing | src/components/seocc/pages/SettingsClient.tsx:84-87 | without a company id `create` alerts and changes nothing, with no insert |
| Settings.MissingFieldsChangeNothing | src/components/seocc/pages/SettingsClient.tsx:88-91 | with an empty name or domain `create` alerts and changes nothing, with no insert |
| Settings.InsertIff | src/components/seocc/pages/SettingsClient.tsx:84-94 | an insert happens iff company, name and domain are non-empty, with exactly those values |
| Settings.CanCreate | src/components/seocc/pages/SettingsClient.tsx:76 | the button is enabled iff company id, name and domain are non-empty and nothing is saving; EnabledButtonInserts ties it to the insert |
| Settings.AfterCreate | src/components/seocc/pages/SettingsClient.tsx:83-100 | the whole of `create`; stated by NoCompanyChangesNothing, MissingFieldsChangeNothing, InsertIff, SuccessResetsAndReloads, FailureKeepsInput and SavingEndsFalse |
| Settings.EnabledButtonInserts | src/components/seocc/pages/SettingsClient.tsx:76-94 | an enabled button always leads to an insert |
| Settings.CreateIgnoresSaving | src/components/seocc/pages/SettingsClient.tsx:83-92 | `create` itself does not test `saving` |
| Settings.SuccessResetsAndReloads | src/components/seocc/pages/SettingsClient.tsx:94-96 | a successful insert and listing empties the form and shows the new rows, with no alert |
| Settings.FailureKeepsInput | src/components/seocc/pages/SettingsClient.tsx:97-99 | a failed insert keeps the form and alerts its message or the default |
| Settings.SavingEndsFalse | src/components/seocc/pages/SettingsClient.tsx:92-99 | once past validation, saving is false afterwards |
| Settings.WebsitesPanel.Load | src/components/seocc/pages/SettingsClient.tsx:77-80 | the panel becomes `AfterLoad` |
| Settings.WebsitesPanel.Create | src/components/seocc/pages/SettingsClient.tsx:83-100 | the panel, the alert and the insert are those of `AfterCreate` |
| Settings.HighlightIsCurrentTab | src/components/seocc/pages/SettingsClient.tsx:155 | a tab button is highlighted iff it is the current tab |
| Settings.SettingsPage.constructor | src/components/seocc/pages/SettingsClient.tsx:149 | the page opens on `koppelingen` |
| Settings.SettingsPage.Select | src/components/seocc/pages/SettingsClient.tsx:155 | a tab button selects its own tab |
| Content.ContentRows | src/components/seocc/pages/ContentClient.tsx:6-14 | twelve rows, row `i` generated from `i` |
| Content.Row | src/components/seocc/pages/ContentClient.tsx:6-14 | row `i` of the table; its numbering is stated by RowNumbering and RowsDistinct |
| Content.RowNumbering | src/components/seocc/pages/ContentClient.tsx:7-8 | row `i` is titled `Artikel {i+1}` and linked at `/artikel-{i+1}` |
| Content.RowsDistinct | src/components/seocc/pages/ContentClient.tsx:7-8 | no two rows share a title or a url |
| Content.RowDateShape | src/components/seocc/pages/ContentClient.tsx:9 | each date is `2025-0M-0D` with M = i mod 9 + 1 and D = i mod 8 + 1 |
| Content.RowsAscend | src/components/seocc/pages/ContentClient.tsx:10-13 | later rows have more sessions and a higher score |
| Content.Filter | src/components/seocc/pages/ContentClient.tsx:21 | a row is kept iff it is in the table and its lower-cased title contains the lower-cased query |
| Content.Matches | src/components/seocc/pages/ContentClient.tsx:21 | the lower-cased title contains the lower-cased query; the filter keeps exactly these rows |
| Content.FilterAppend | src/components/seocc/pages/ContentClient.tsx:21 | filtering keeps the original order |
| Content.FilterIdempotent | src/components/seocc/pages/ContentClient.tsx:21 | filtering twice is filtering once |
| Content.EmptyQueryKeepsAll | src/components/seocc/pages/ContentClient.tsx:17-21 | the empty query keeps all twelve rows |
| Content.FilterIgnoresCase | src/components/seocc/pages/ContentClient.tsx:21 | an upper-cased query keeps the same rows |
| Content.ScreenOf | src/components/seocc/pages/ContentClient.tsx:155-185 | the detail shows iff a row is open; with no row open, tab Overzicht shows the overview of the filtered rows and tab Kalender the calendar |
| Content.InitialShowsAllRows | src/components/seocc/pages/ContentClient.tsx:150-151 | the page opens on the full overview |
| Content.OpenThenBack | src/components/seocc/pages/ContentClient.tsx:166-182 | opening a row hides the tab bar; back returns to the same tab, the filter cleared |
| Content.ContentPage.SetQuery | src/components/seocc/pages/ContentClient.tsx:17-27 | typing changes only the query, and is possible only while the overview is on screen |
| Content.ContentPage.SetView | src/components/seocc/pages/ContentClient.tsx:155-165 | only while no row is open (the tab bar is hidden otherwise), the page becomes `AfterSetView` |
| Content.ContentPage.Open | src/components/seocc/pages/ContentClient.tsx:166 | the page becomes `AfterOpen` |
| Content.ContentPage.Back | src/components/seocc/pages/ContentClient.tsx:182 | the page becomes `AfterBack` |
| Content.AfterOpen | src/components/seocc/pages/ContentClient.tsx:166 | a row is open and the overview's query starts over; stated by OpenThenBack |
| Content.AfterBack | src/components/seocc/pages/ContentClient.tsx:182 | no row is open and the tab is kept; stated by OpenThenBack |
| Content.SetViewShowsTab | src/components/seocc/pages/ContentClient.tsx:151-166 | after a tab click with no row open, the chosen tab is on screen beside the tab bar; the overview keeps its query only when its own tab is clicked again, since switching tabs unmounts it |
| Keywords.KwRows | src/components/seocc/pages/KeywordsClient.tsx:6-12 | fifteen rows, row `i` generated from `i` |
| Keywords.KeywordRow | src/components/seocc/pages/KeywordsClient.tsx:6-12 | row `i` of the table; stated by LinkedColumns and KeywordNumbering |
| Keywords.KeywordNumbering | src/components/seocc/pages/KeywordsClient.tsx:7 | row `i` is the keyword `zoekwoord {i+1}` |
| Keywords.KeywordsDistinct | src/components/seocc/pages/KeywordsClient.tsx:7 | no two rows share a keyword |
| Keywords.LinkedColumns | src/components/seocc/pages/KeywordsClient.tsx:10-11 | a row has an article iff i mod 3 = 0 and a briefing iff i mod 4 = 0 |
| Keywords.AfterOpen | src/components/seocc/pages/KeywordsClient.tsx:126 | opening a keyword shows its detail |
| Keywords.AfterBack | src/components/seocc/pages/KeywordsClient.tsx:129 | back shows the database list |
| Keywords.AfterTab | src/components/seocc/pages/KeywordsClient.tsx:122 | a tab changes only the view |
| Keywords.StartsOnDatabase | src/components/seocc/pages/KeywordsClient.tsx:111-112 | the page starts on the database list |
| Keywords.OpenThenBack | src/components/seocc/pages/KeywordsClient.tsx:126-129 | opening and going back returns to the initial state |
| Keywords.TabLeavesDetailStranded | src/components/seocc/pages/KeywordsClient.tsx:122-130 | leaving a detail by a tab and returning to Database shows neither list nor detail |
| Keywords.StrandedForever | src/components/seocc/pages/KeywordsClient.tsx:122-130 | no run of tab clicks brings the list or the detail back |
| Keywords.StepsKeepDetailBacked | src/components/seocc/pages/KeywordsClient.tsx:122-129 | the detail view always has a keyword |
| Keywords.KeywordsPage.Open | src/components/seocc/pages/KeywordsClient.tsx:126 | the page becomes `AfterOpen` |
| Keywords.KeywordsPage.Back | src/components/seocc/pages/KeywordsClient.tsx:129 | the page becomes `AfterBack` |
| Keywords.KeywordsPage.SelectTab | src/components/seocc/pages/KeywordsClient.tsx:122 | the page becomes `AfterTab` |
| Briefings.NewRow | src/components/seocc/pages/BriefingsClient.tsx:12 | the new row's fixed keyword, type and article per request kind, and status `Genereren...` |
| Briefings.AfterAdd | src/components/seocc/pages/BriefingsClient.tsx:13 | exactly one new row in front, the old rows after it in order |
| Briefings.AfterComplete | src/components/seocc/pages/BriefingsClient.tsx:14 | the first row becomes ready; the others are unchanged |
| Briefings.AddThenComplete | src/components/seocc/pages/BriefingsClient.tsx:11-15 | a request and its completion leave a ready row in front of the old ones |
| Briefings.CompleteIdempotent | src/components/seocc/pages/BriefingsClient.tsx:14 | completing twice is completing once |
| Briefings.TwoRequestsLeaveOneGenerating | src/components/seocc/pages/BriefingsClient.tsx:13-14 | two quick requests leave the older new row generating after both timers |
| Briefings.InitiallyAllReady | src/components/seocc/pages/BriefingsClient.tsx:7-10 | both initial rows are ready |
| Briefings.BriefingsPage.Add | src/components/seocc/pages/BriefingsClient.tsx:11-15 | the rows become `AfterAdd` and one more completion is scheduled |
| Briefings.BriefingsPage.Complete | src/components/seocc/pages/BriefingsClient.tsx:14 | the rows become `AfterComplete` and one scheduled completion is used up |

## Left out

- Supabase calls (`getSession`, `setSession`, `onAuthStateChange`, `signOut`, the `profiles` and `companies` queries) are foreign code. Their outcomes are parameters of the model.
- `seoccApi.listWebsites` and `createWebsite` (src/lib/seocc.ts) wrap the Supabase query builder. Their outcomes are parameters too, and the `oranje` stub they fall back to is one such outcome. Both catch every error and return a stub instead (`listWebsites` the `oranje` row, `createWebsite` a `created-local` website), so neither ever throws. The panel still models a thrown listing and a thrown insert, because `create` and `load` are written to handle them.
- `fetch` and `response.json()` are not modelled: `Api.Call` takes the response as an input and returns the request it would send.
- Navigation is a returned target or list of targets. The 1500, 3000 and 800 ms delays are not modelled: a timer is a pending entry that fires when asked.
- The auth provider's mount effect installs the demo profile alongside the original auth code. Which of the two runs first is effect order, which the model does not fix; each is a separate step.
- Two subscriptions can see the same event: the auth provider's and the callback page's. Interleavings between them, stale closures in `loadWebsites` and the briefings `add`, and React re-renders are not modelled.
- The current date in a new briefing is a parameter, since it comes from the clock.
- JSON text is modelled only as far as storing a profile needs: a fixed field order, and `null` for absent optional fields. `JSON.parse` of text that was not written by `setUserProfile` is just "unreadable". Extra profile keys and non-string metadata values are not represented.
- Query and fragment parameters are already-decoded maps: URLSearchParams percent-decoding is not modelled.
- `encodeURIComponent` throws on a lone surrogate; the model cannot represent one, since a Dafny character is a Unicode scalar value. Each code point is encoded as its UTF-8 bytes.
- Api.Stringify: `Data.Number` holds integers only, so non-integer numbers and their `JSON.stringify` form are not modelled.
- Case mapping (`toUpperCase`, `toLowerCase`) is ASCII only.
- String length and indexing are per code point, not per UTF-16 code unit. So `UserMenu.Initials` takes a whole astral-plane character where `n[0]` would take half a surrogate pair, and `.slice(0, 2)` counts code points.
- The ctr and pos columns of the content rows are float formatting with `toFixed`, and are left out.
- The inner detail tabs of the content page, and the calendar, keyword-opportunity and explorer panels, are presentational.
- A `sessionStorage.setItem` that throws inside `try {} catch {}` in the tenant provider is not modelled: writes always succeed there.
- `productName`, `maxAge` and all console logging are not modelled.
- Presentational and configuration files are not modelled: the UI kit, dashboard and performance pages, nav search, subheader, sidebar links, static pages, root layout, middleware and Next config.
- AuthContext.AuthProvider.ProfileResolved: nothing forces the fetch result to be applied only after `InitialSession`, because the real fetch is not awaited and can land at any later point.
