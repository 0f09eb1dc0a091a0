/**
 * End-to-end runs of the session layer on a freshly created store and
 * provider: what a caller of the controller, the gateway and the router can
 * conclude from their contracts alone.
 */
module Scenarios {
  import opened Wrappers
  import opened ApiTypes
  import opened Storage
  import opened TokenStore
  import opened Gateway
  import opened VerificationRouting
  import opened AuthProvider

  /** Fresh install, nothing stored: loading yields no user and no status, and the router picks the entry screen. */
  method FreshInstall(now: int, me: Exchange<User>, statusCall: Exchange<StatusBody>, logoutRefresh: RefreshOutcome)
    returns (loadedUser: Option<User>, loadedStatus: Option<VerificationStatus>, route: Route)
    ensures loadedUser.None? && loadedStatus.None? && route == AuthEntry
  {
    var store := new KeyValueStore(map[], false, false);
    var session := new Session(store);
    var logoutCall, navigation;
    loadedUser, loadedStatus, logoutCall, navigation := session.LoadData(now, me, statusCall, logoutRefresh);
    route := GetVerificationRoute(loadedUser, loadedStatus);
  }

  /**
   * Valid stored tokens and `/auth/me` answering with an email-verified user:
   * the router sends the user to identity-document capture.
   */
  method EmailVerifiedUserGoesToStep2(now: int, tokens: Tokens, user: User, statusCall: Exchange<StatusBody>, logoutRefresh: RefreshOutcome)
    returns (route: Route)
    requires tokens.token != "" && tokens.tokenExpires > now + RefreshMarginMs
    requires user.verificationStep == Some(EmailVerified)
    requires statusCall.response == Replied(HttpOk, Some(StatusBody(Some(EmailVerified), None, false, None)))
    ensures route == SignUpStep2
  {
    var store := new KeyValueStore(map[AuthTokenKey := TokensEntry(tokens)], false, false);
    var session := new Session(store);
    var me := Exchange(NetworkError, Replied(HttpOk, Some(user)));
    var loadedUser, loadedStatus, logoutCall, navigation := session.LoadData(now, me, statusCall, logoutRefresh);
    route := GetVerificationRoute(loadedUser, loadedStatus);
  }

  /**
   * Startup with a stored token that has already expired: `/auth/me` is not
   * asked, the logout endpoint is called, the store ends up empty and the
   * app is sent to the entry screen.
   */
  method ExpiredTokenLogsOut(now: int, tokens: Tokens, me: Exchange<User>, statusCall: Exchange<StatusBody>, logoutRefresh: RefreshOutcome)
    returns (logoutCall: Option<Request>, navigation: Option<Route>, stored: Option<Tokens>)
    requires tokens.token != "" && tokens.tokenExpires != 0 && tokens.tokenExpires < now
    ensures logoutCall.Some? && logoutCall.value.target == AuthLogout
    ensures navigation == Some(AuthEntry)
    ensures stored.None?
  {
    var store := new KeyValueStore(map[AuthTokenKey := TokensEntry(tokens)], false, false);
    var session := new Session(store);
    var loadedUser, loadedStatus;
    loadedUser, loadedStatus, logoutCall, navigation := session.LoadData(now, me, statusCall, logoutRefresh);
    stored := GetTokensInfo(store);
  }

  /**
   * The refresh endpoint answers 500: the token store ends up empty, and the
   * request that triggered the refresh still carries the old access token.
   */
  method RefreshServerError(now: int, tokens: Tokens, target: Endpoint)
    returns (stored: Option<Tokens>, sent: Request)
    requires tokens.token != "" && tokens.tokenExpires != 0 && tokens.tokenExpires - RefreshMarginMs <= now
    ensures stored.None?
    ensures AuthorizationHeader in sent.headers && sent.headers[AuthorizationHeader] == Bearer(tokens.token)
  {
    var store := new KeyValueStore(map[AuthTokenKey := TokensEntry(tokens)], false, false);
    var _, request := UseFetch(store, target, FetchInit("GET", false, map[]), now, Replied(500, None));
    sent := request;
    stored := GetTokensInfo(store);
  }

  /**
   * Logging out twice in a row: both times the store and the user end up
   * absent, and the logout endpoint is called only the first time.
   */
  method LogOutTwice(now: int, tokens: Tokens, refresh: RefreshOutcome)
    returns (firstCall: Option<Request>, secondCall: Option<Request>, stored: Option<Tokens>, user: Option<User>)
    requires tokens.token != ""
    ensures firstCall.Some? && secondCall.None?
    ensures stored.None? && user.None?
  {
    var store := new KeyValueStore(map[AuthTokenKey := TokensEntry(tokens)], false, false);
    var session := new Session(store);
    var navigation;
    firstCall, navigation := session.LogOut(now, refresh);
    secondCall, navigation := session.LogOut(now, refresh);
    stored := GetTokensInfo(store);
    user := session.user;
  }
}
