/** The SSO callback page: it takes the tokens from the URL, subscribes to
    auth events, hands the tokens to the auth client, and moves from
    `loading` to `success` or `error`, with the navigations it schedules. */
module SsoCallback {
  import opened Wrappers
  import opened Strings
  import opened AuthConfig
  import opened Api
  import opened Storage
  import opened AuthContext

  /** The access and refresh token, each possibly missing. */
  datatype Tokens = Tokens(access: Option<string>, refresh: Option<string>)

  /** Tokens from the query, or, when the query has no access token and the
      fragment is non-empty (`hash` is its parsed parameters), both from the
      fragment. */
  function ExtractTokens(query: map<string, string>, hash: Option<map<string, string>>): (t: Tokens)
    ensures Truthy(Param(query, "access_token")) || hash.None? ==>
      t == Tokens(Param(query, "access_token"), Param(query, "refresh_token"))
    ensures !Truthy(Param(query, "access_token")) && hash.Some? ==>
      t == Tokens(Param(hash.value, "access_token"), Param(hash.value, "refresh_token"))
  {
    var access := Param(query, "access_token");
    var refresh := Param(query, "refresh_token");
    if !Truthy(access) && hash.Some? then
      Tokens(Param(hash.value, "access_token"), Param(hash.value, "refresh_token"))
    else Tokens(access, refresh)
  }

  /** A fragment replaces the query's refresh token even when the fragment has none. */
  lemma FragmentOverridesRefresh(query: map<string, string>, fragment: map<string, string>)
    requires !Truthy(Param(query, "access_token"))
    requires "refresh_token" in query && "refresh_token" !in fragment
    ensures ExtractTokens(query, Some(fragment)).refresh == None
  {
  }

  /** Both tokens are present and non-empty. */
  predicate Complete(t: Tokens) {
    Truthy(t.access) && Truthy(t.refresh)
  }

  datatype Status = Loading | Success | Failure

  /** A navigation scheduled by a timer; `unsubscribeFirst` for the success timer. */
  datatype Timer = Timer(delayMs: nat, target: string, unsubscribeFirst: bool)

  /** The calls the page makes on the auth client and the router, in order. */
  datatype Effect = Subscribe | SetSession(access: string, refresh: string) | Unsubscribe | Replace(target: string)

  /** What an unexpected error carries: its message, or none for a non-`Error` value. */
  datatype Crash = NoCrash | Crashed(message: Option<string>)

  /** Page state together with the session store. */
  datatype CallbackView = CallbackView(
    status: Status,
    message: string,
    subscribed: bool,
    pending: seq<Timer>,
    effects: seq<Effect>,
    items: map<string, string>)

  const InitialMessage := "Bezig met inloggen..."
  const NoTokensMessage := "Geen authenticatie tokens gevonden. Probeer opnieuw in te loggen."
  const TokensMessage := "Tokens ontvangen, bezig met sessie instellen..."
  const SuccessMessage := "Succesvol ingelogd! Je wordt doorgestuurd..."
  const LoginTimer := Timer(3000, LoginRoute, false)

  /** The message of an unexpected error. */
  function CrashMessage(m: Option<string>): (r: string)
    ensures m.Some? ==> r == "Onverwachte fout: " + m.value
    ensures m.None? ==> r == "Onverwachte fout: Onbekende fout"
  {
    "Onverwachte fout: " + (if m.Some? then m.value else "Onbekende fout")
  }

  /** Where a successful login goes: the `redirect_path` query value, else the dashboard. */
  function SuccessTarget(query: map<string, string>): (target: string)
    ensures "redirect_path" in query && query["redirect_path"] != "" ==> target == query["redirect_path"]
    ensures !("redirect_path" in query && query["redirect_path"] != "") ==> target == DashboardRoute
  {
    OrElse(Param(query, "redirect_path"), DashboardRoute)
  }

  /** The state after `handleSSOCallback` runs. */
  function AfterHandle(v: CallbackView, query: map<string, string>, hash: Option<map<string, string>>, crash: Crash): (w: CallbackView)
    ensures w.items == v.items
    ensures crash.Crashed? ==>
      w.status == Failure && w.message == CrashMessage(crash.message) && w.pending == v.pending + [LoginTimer]
      && w.effects == v.effects && w.subscribed == v.subscribed
  {
    match crash
    case Crashed(m) =>
      v.(status := Failure, message := CrashMessage(m), pending := v.pending + [LoginTimer])
    case NoCrash =>
      var t := ExtractTokens(query, hash);
      if !Complete(t) then
        v.(status := Failure, message := NoTokensMessage, pending := v.pending + [LoginTimer])
      else
        v.(message := TokensMessage, subscribed := true,
           effects := v.effects + [Subscribe, SetSession(t.access.value, t.refresh.value)])
  }

  /** Missing tokens fail, schedule the login redirect, and never subscribe. */
  lemma MissingTokensFail(v: CallbackView, query: map<string, string>, hash: Option<map<string, string>>)
    requires !Complete(ExtractTokens(query, hash))
    ensures var w := AfterHandle(v, query, hash, NoCrash);
            w.status == Failure && w.message == NoTokensMessage
            && w.pending == v.pending + [LoginTimer]
            && w.effects == v.effects && w.subscribed == v.subscribed
  {
  }

  /** With both tokens the listener is registered, then the session is set with exactly that pair. */
  lemma CompleteTokensSubscribeThenSet(v: CallbackView, query: map<string, string>, hash: Option<map<string, string>>)
    requires Complete(ExtractTokens(query, hash))
    ensures var t := ExtractTokens(query, hash);
            var w := AfterHandle(v, query, hash, NoCrash);
            w.subscribed && w.status == v.status && w.message == TokensMessage && w.pending == v.pending
            && w.effects == v.effects + [Subscribe, SetSession(t.access.value, t.refresh.value)]
  {
  }

  /** The company id the callback stores: the metadata's string `company_id`. */
  function CallbackUpdate(s: Session): (u: AuthUpdate)
    ensures u.userId == Some(s.user.id) && u.authToken == Some(s.accessToken)
    ensures u.companyId == s.user.meta.companyId
  {
    AuthUpdate(Some(s.user.id), Some(s.accessToken), s.user.meta.companyId)
  }

  /** The state after an auth event reaches the listener (if it is registered). */
  function AfterCallbackEvent(v: CallbackView, query: map<string, string>, event: AuthEvent, s: Option<Session>): (w: CallbackView)
    ensures !(v.subscribed && event.SignedIn? && s.Some?) ==> w == v
  {
    if v.subscribed && event.SignedIn? && s.Some? then
      v.(items := AfterSetAuthData(v.items, CallbackUpdate(s.value)),
         status := Success, message := SuccessMessage,
         pending := v.pending + [Timer(1500, SuccessTarget(query), true)])
    else v
  }

  /** A `SIGNED_IN` with a session succeeds: the credentials are stored and
      the redirect to the success target is scheduled. */
  lemma SignedInSucceeds(v: CallbackView, query: map<string, string>, s: Session)
    requires v.subscribed && s.user.id != "" && s.accessToken != ""
    ensures var w := AfterCallbackEvent(v, query, SignedIn, Some(s));
            w.status == Success && w.message == SuccessMessage
            && IsAuthenticated(w.items)
            && GetAuthData(w.items).userId == s.user.id && GetAuthData(w.items).authToken == s.accessToken
            && (Truthy(s.user.meta.companyId) ==> GetAuthData(w.items).companyId == s.user.meta.companyId.value)
            && (!Truthy(s.user.meta.companyId) ==> GetAuthData(w.items).companyId == GetAuthData(v.items).companyId)
            && w.pending == v.pending + [Timer(1500, SuccessTarget(query), true)]
  {
  }

  /** The state after the session call rejects with `error`. */
  function AfterRejected(v: CallbackView, error: string): (w: CallbackView)
    ensures w.status == Failure && !w.subscribed && w.items == v.items
    ensures w.message == "Fout bij instellen sessie: " + error
    ensures w.effects == v.effects + [Unsubscribe] && w.pending == v.pending + [LoginTimer]
  {
    v.(status := Failure, message := "Fout bij instellen sessie: " + error, subscribed := false,
       effects := v.effects + [Unsubscribe], pending := v.pending + [LoginTimer])
  }

  /** After a rejection no event reaches the page any more. */
  lemma RejectedIgnoresEvents(v: CallbackView, error: string, query: map<string, string>, event: AuthEvent, s: Option<Session>)
    ensures AfterCallbackEvent(AfterRejected(v, error), query, event, s) == AfterRejected(v, error)
  {
  }

  /** The state after pending timer `i` fires. */
  function AfterFire(v: CallbackView, i: nat): (w: CallbackView)
    requires i < |v.pending|
    ensures w.pending == v.pending[..i] + v.pending[i + 1..]
    ensures v.pending[i].unsubscribeFirst ==>
      !w.subscribed && w.effects == v.effects + [Unsubscribe, Replace(v.pending[i].target)]
    ensures !v.pending[i].unsubscribeFirst ==>
      w.subscribed == v.subscribed && w.effects == v.effects + [Replace(v.pending[i].target)]
    ensures w.status == v.status && w.message == v.message && w.items == v.items
  {
    var t := v.pending[i];
    var rest := v.pending[..i] + v.pending[i + 1..];
    if t.unsubscribeFirst then
      v.(pending := rest, subscribed := false, effects := v.effects + [Unsubscribe, Replace(t.target)])
    else v.(pending := rest, effects := v.effects + [Replace(t.target)])
  }

  /** A callback whose tokens are missing ends at the login route and never talks to the auth client. */
  lemma MissingTokensEndAtLogin(v: CallbackView, query: map<string, string>, hash: Option<map<string, string>>)
    requires !Complete(ExtractTokens(query, hash)) && v.pending == [] && !v.subscribed
    ensures var w := AfterFire(AfterHandle(v, query, hash, NoCrash), 0);
            w.effects == v.effects + [Replace(LoginRoute)] && w.status == Failure && w.pending == []
  {
  }

  /** An unexpected error ends at the login route whatever the tokens, without talking to the auth client. */
  lemma CrashEndsAtLogin(v: CallbackView, query: map<string, string>, hash: Option<map<string, string>>, m: Option<string>)
    requires v.pending == [] && !v.subscribed
    ensures var w := AfterFire(AfterHandle(v, query, hash, Crashed(m)), 0);
            w.effects == v.effects + [Replace(LoginRoute)] && w.status == Failure
            && w.message == CrashMessage(m) && w.pending == [] && w.items == v.items
  {
  }

  /** The page, with its state updated in place. */
  class CallbackPage {
    var status: Status
    var message: string
    var subscribed: bool
    var pending: seq<Timer>
    var effects: seq<Effect>
    const store: SessionStore
    const query: map<string, string>

    constructor (store: SessionStore, query: map<string, string>)
      ensures this.store == store && this.query == query
      ensures status == Loading && message == InitialMessage && !subscribed && pending == [] && effects == []
    {
      this.store := store;
      this.query := query;
      status := Loading;
      message := InitialMessage;
      subscribed := false;
      pending := [];
      effects := [];
    }

    function View(): CallbackView
      reads this, store
    {
      CallbackView(status, message, subscribed, pending, effects, store.items)
    }

    /** `handleSSOCallback`, given the parsed fragment and whether an unexpected error is thrown. */
    method Handle(hash: Option<map<string, string>>, crash: Crash)
      modifies this
      ensures View() == AfterHandle(old(View()), query, hash, crash)
    {
      if crash.Crashed? {
        status := Failure;
        message := CrashMessage(crash.message);
        pending := pending + [LoginTimer];
        return;
      }
      var access := Param(query, "access_token");
      var refresh := Param(query, "refresh_token");
      if !Truthy(access) && hash.Some? {
        access := Param(hash.value, "access_token");
        refresh := Param(hash.value, "refresh_token");
      }
      if !Truthy(access) || !Truthy(refresh) {
        status := Failure;
        message := NoTokensMessage;
        pending := pending + [LoginTimer];
        return;
      }
      message := TokensMessage;
      subscribed := true;
      effects := effects + [Subscribe];
      effects := effects + [SetSession(access.value, refresh.value)];
    }

    /** The registered listener receiving an auth event. */
    method OnAuthEvent(event: AuthEvent, s: Option<Session>)
      modifies this, store
      ensures View() == AfterCallbackEvent(old(View()), query, event, s)
    {
      if subscribed && event.SignedIn? && s.Some? {
        SetAuthData(store, CallbackUpdate(s.value));
        status := Success;
        message := SuccessMessage;
        pending := pending + [Timer(1500, SuccessTarget(query), true)];
      }
    }

    /** The session call rejecting with `error`. */
    method OnSetSessionRejected(error: string)
      modifies this
      ensures View() == AfterRejected(old(View()), error)
    {
      status := Failure;
      message := "Fout bij instellen sessie: " + error;
      subscribed := false;
      effects := effects + [Unsubscribe];
      pending := pending + [LoginTimer];
    }

    /** Pending timer `i` firing. */
    method FireTimer(i: nat)
      requires i < |pending|
      modifies this
      ensures View() == AfterFire(old(View()), i)
    {
      var t := pending[i];
      pending := pending[..i] + pending[i + 1..];
      if t.unsubscribeFirst {
        subscribed := false;
        effects := effects + [Unsubscribe];
      }
      effects := effects + [Replace(t.target)];
    }
  }
}
