/** The authentication router: the authorization-code flow with its CSRF
    state nonce (section 10.12 of RFC 6749) and the two logout routes. Each
    handler is a method that changes the session in place, specified by a
    pure function of the session before the request. The provider's token
    exchange and the random nonce are inputs. */
module Auth {
  import opened Common
  import opened Sessions

  /** Where a successful callback sends the browser. */
  const DashboardPath := "/dashboard"

  /** Status of both callback refusals. */
  const BadRequest := 400

  const MismatchingState := "Mismatching state parameter."
  const NoAccessToken := "No se recibió el access token"

  /** Characters of a URL-safe base64 text. */
  predicate UrlSafeChar(c: char) {
    'A' <= c <= 'Z' || 'a' <= c <= 'z' || '0' <= c <= '9' || c == '-' || c == '_'
  }

  /** What `secrets.token_urlsafe(16)` can produce: sixteen random bytes in
      unpadded URL-safe base64, 22 characters. */
  predicate UrlSafeToken(s: string) {
    |s| == 22 && forall i :: 0 <= i < |s| ==> UrlSafeChar(s[i])
  }

  /** What the provider's token endpoint gave back: a token response with an
      optional access token, or an error the OAuth client raises. */
  datatype Exchange = TokenResponse(accessToken: Option<string>) | ExchangeError

  /** What an authentication route answers. `ToProvider` is the redirect to
      the provider's authorize endpoint carrying the state; `InternalError`
      stands for an exception the handler does not catch. */
  datatype AuthResponse =
    | ToProvider(state: string)
    | Redirect(location: string, status: int)
    | HttpError(status: int, detail: string)
    | InternalError

  /** GET /oauth/authorize: remember the fresh state and send the browser to
      the provider with it. */
  function AuthorizeSpec(session: map<string, string>, state: string): (h: Handled<AuthResponse>)
    requires UrlSafeToken(state)
    ensures h.response == ToProvider(state)
    ensures StateKey in h.session && h.session[StateKey] == state
    ensures h.session.Keys == session.Keys + {StateKey}
    ensures forall k :: k in session && k != StateKey ==> h.session[k] == session[k]
  {
    Handled(ToProvider(state), session[StateKey := state])
  }

  /** GET /oauth/callback?state=…: the stored state must be present and equal
      to the echoed one; it is then consumed before the code is exchanged,
      and the access token, if any, becomes the session's token. */
  function CallbackSpec(session: map<string, string>, received: Option<string>, exchange: Exchange): (h: Handled<AuthResponse>)
    // a missing, empty or different state is refused and changes nothing
    ensures !Truthy(Get(session, StateKey)) || Get(session, StateKey) != received ==>
              h == Handled(HttpError(BadRequest, MismatchingState), session)
    // otherwise the stored state is gone, whatever the exchange gives
    ensures Truthy(Get(session, StateKey)) && Get(session, StateKey) == received ==>
              StateKey !in h.session
    // a token is stored exactly on success, and it is the access token
    ensures h.response == Redirect(DashboardPath, TemporaryRedirect) <==>
              Truthy(Get(session, StateKey)) && Get(session, StateKey) == received &&
              exchange.TokenResponse? && Truthy(exchange.accessToken)
    ensures h.response == Redirect(DashboardPath, TemporaryRedirect) ==>
              h.session == (session - {StateKey})[TokenKey := exchange.accessToken.value]
    ensures !h.response.Redirect? ==> h.session == session || h.session == session - {StateKey}
    // an exchange the OAuth client refuses raises, after the state is consumed
    ensures h.response == InternalError <==>
              Truthy(Get(session, StateKey)) && Get(session, StateKey) == received &&
              exchange.ExchangeError?
    ensures h.response == InternalError ==> h.session == session - {StateKey}
    // an exchange without an access token is refused after the state is consumed
    ensures Truthy(Get(session, StateKey)) && Get(session, StateKey) == received &&
            exchange.TokenResponse? && !Truthy(exchange.accessToken) ==>
              h == Handled(HttpError(BadRequest, NoAccessToken), session - {StateKey})
  {
    var expected := Get(session, StateKey);
    if !Truthy(expected) || expected != received then
      Handled(HttpError(BadRequest, MismatchingState), session)
    else
      var consumed := session - {StateKey};
      match exchange
      case ExchangeError => Handled(InternalError, consumed)
      case TokenResponse(accessToken) =>
        if !Truthy(accessToken) then Handled(HttpError(BadRequest, NoAccessToken), consumed)
        else Handled(Redirect(DashboardPath, TemporaryRedirect), consumed[TokenKey := accessToken.value])
  }

  /** GET /logout: the whole session is emptied, then back to the login page. */
  function LogoutSpec(session: map<string, string>): (h: Handled<AuthResponse>)
    ensures h.session == map[] && h.response == Redirect(Root, TemporaryRedirect)
  {
    Handled(Redirect(Root, TemporaryRedirect), map[])
  }

  /** GET /logout-authentik: the whole session is emptied, then on to the
      provider's end-session page. */
  function LogoutProviderSpec(session: map<string, string>, logoutUrl: string): (h: Handled<AuthResponse>)
    ensures h.session == map[] && h.response == Redirect(logoutUrl, TemporaryRedirect)
  {
    Handled(Redirect(logoutUrl, TemporaryRedirect), map[])
  }

  /** Logging out twice is the same as logging out once. */
  lemma LogoutIdempotent(session: map<string, string>, logoutUrl: string)
    ensures LogoutSpec(LogoutSpec(session).session) == LogoutSpec(session)
    ensures LogoutProviderSpec(LogoutProviderSpec(session, logoutUrl).session, logoutUrl)
            == LogoutProviderSpec(session, logoutUrl)
  {
  }

  /** The flow completes: after authorizing with a fresh state, the callback
      that echoes it and receives an access token stores exactly that token
      and leaves every other key as it was before the flow began. */
  lemma AuthorizeThenCallback(session: map<string, string>, state: string, token: string)
    requires UrlSafeToken(state) && token != ""
    ensures var h := CallbackSpec(AuthorizeSpec(session, state).session, Some(state), TokenResponse(Some(token)));
            h.response == Redirect(DashboardPath, TemporaryRedirect) &&
            h.session == (session - {StateKey})[TokenKey := token]
  {
    var authorized := AuthorizeSpec(session, state).session;
    assert authorized - {StateKey} == session - {StateKey};
  }

  /** A callback replayed after a successful one is refused and changes
      nothing, because the first one consumed the state. */
  lemma ReplayRefused(session: map<string, string>, received: Option<string>, exchange: Exchange,
                      again: Option<string>, exchange2: Exchange)
    requires CallbackSpec(session, received, exchange).response.Redirect?
    ensures var after := CallbackSpec(session, received, exchange).session;
            CallbackSpec(after, again, exchange2) == Handled(HttpError(BadRequest, MismatchingState), after)
  {
  }

  /** Only a callback that echoes the state stored at authorization can set a
      token: a different echoed state is refused whatever the exchange. */
  lemma ForgedStateRefused(session: map<string, string>, state: string, forged: Option<string>, exchange: Exchange)
    requires UrlSafeToken(state) && forged != Some(state)
    ensures var authorized := AuthorizeSpec(session, state).session;
            CallbackSpec(authorized, forged, exchange) == Handled(HttpError(BadRequest, MismatchingState), authorized)
  {
  }

  /** GET /oauth/authorize as a handler that changes the session in place.
      `state` is the fresh value `secrets.token_urlsafe(16)` gave. */
  method OAuthAuthorize(session: Session, state: string) returns (r: AuthResponse)
    requires UrlSafeToken(state)
    modifies session
    ensures Handled(r, session.data) == AuthorizeSpec(old(session.data), state)
  {
    session.Set(StateKey, state);
    r := ToProvider(state);
  }

  /** GET /oauth/callback as a handler that changes the session in place.
      `received` is the `state` query parameter; `exchange` is what the
      provider's token endpoint answered. */
  method OAuthCallback(session: Session, received: Option<string>, exchange: Exchange) returns (r: AuthResponse)
    modifies session
    ensures Handled(r, session.data) == CallbackSpec(old(session.data), received, exchange)
  {
    var expected := session.Lookup(StateKey);
    if !Truthy(expected) || expected != received {
      return HttpError(BadRequest, MismatchingState);
    }
    session.Pop(StateKey);
    if exchange.ExchangeError? {
      return InternalError;
    }
    var accessToken := exchange.accessToken;
    if !Truthy(accessToken) {
      return HttpError(BadRequest, NoAccessToken);
    }
    session.Set(TokenKey, accessToken.value);
    r := Redirect(DashboardPath, TemporaryRedirect);
  }

  /** GET /logout as a handler that changes the session in place. */
  method Logout(session: Session) returns (r: AuthResponse)
    modifies session
    ensures Handled(r, session.data) == LogoutSpec(old(session.data))
  {
    session.Clear();
    r := Redirect(Root, TemporaryRedirect);
  }

  /** GET /logout-authentik as a handler that changes the session in place.
      `logoutUrl` is the configured end-session address. */
  method LogoutProvider(session: Session, logoutUrl: string) returns (r: AuthResponse)
    modifies session
    ensures Handled(r, session.data) == LogoutProviderSpec(old(session.data), logoutUrl)
  {
    session.Clear();
    r := Redirect(logoutUrl, TemporaryRedirect);
  }

  /** A whole login, replay and logout run against one session object: the
      callback stores the token, the replayed callback is refused and keeps
      it, and logging out empties the session. */
  method LoginReplayLogout(session: Session, state: string, token: string)
    returns (authorized: AuthResponse, called: AuthResponse, replayed: AuthResponse,
             kept: Option<string>, loggedOut: AuthResponse)
    requires UrlSafeToken(state) && token != ""
    modifies session
    ensures authorized == ToProvider(state)
    ensures called == Redirect(DashboardPath, TemporaryRedirect)
    ensures replayed == HttpError(BadRequest, MismatchingState)
    ensures kept == Some(token)
    ensures loggedOut == Redirect(Root, TemporaryRedirect) && session.data == map[]
  {
    authorized := OAuthAuthorize(session, state);
    called := OAuthCallback(session, Some(state), TokenResponse(Some(token)));
    replayed := OAuthCallback(session, Some(state), TokenResponse(Some(token)));
    kept := session.Lookup(TokenKey);
    loggedOut := Logout(session);
  }
}
