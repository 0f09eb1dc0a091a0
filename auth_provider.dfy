/**
 * The session/verification controller (`AuthProvider`): the in-memory user
 * and verification status, their load flags, the logout guard, and the
 * operations that reconcile them with the server and the token store.
 */
module AuthProvider {
  import opened Wrappers
  import opened ApiTypes
  import opened Storage
  import opened TokenStore
  import opened Gateway
  import opened VerificationRouting

  /** The JSON body of the verification-status endpoint; every field may be missing. */
  datatype StatusBody = StatusBody(currentStep: Option<Step>, nextRoute: Option<string>, isFullyVerified: bool, message: Option<string>)

  /** The status record built from an OK response. */
  function Normalise(data: StatusBody): (s: VerificationStatus)
    ensures s.currentStep == data.currentStep && s.nextRoute == data.nextRoute
    ensures s.isEmailVerified <==> Reached(data.currentStep, EmailVerified)
    ensures s.isIdentityVerified <==> Reached(data.currentStep, IdentityVerified)
    ensures s.isFullyVerified <==> data.isFullyVerified || Reached(data.currentStep, FullyVerified)
    ensures s.isIdentityVerified ==> s.isEmailVerified
    ensures s.message == data.message.GetOr("")
  {
    VerificationStatus(
      data.currentStep,
      data.nextRoute,
      data.isFullyVerified || data.currentStep == Some(FullyVerified),
      data.currentStep in [Some(EmailVerified), Some(IdentityVerified), Some(FullyVerified)],
      data.currentStep in [Some(IdentityVerified), Some(FullyVerified)],
      if data.message.Some? && data.message.value != "" then data.message.value else "")
  }

  /** The status assumed when the endpoint answers with a status other than 200. */
  const DefaultStatus := VerificationStatus(
    Some(EmailVerified), Some("/verify-identity"), false, true, false, "Unable to fetch verification status")

  /**
   * The status `fetchVerificationStatus` settles on once it has called the
   * endpoint: normalised on 200, the default on any other status, and null
   * when the call or the body's JSON throws.
   */
  function StatusFromResponse(response: Response<StatusBody>): (r: Option<VerificationStatus>)
    // null exactly when the call or the body's JSON throws
    ensures r.None? <==> response.NetworkError? || (response.status == HttpOk && response.body.None?)
    // any status other than 200 falls back to the default
    ensures response.Replied? && response.status != HttpOk ==> r == Some(DefaultStatus)
    // a 200 keeps the server's step, and the verified flags never skip a step
    ensures response.Replied? && response.status == HttpOk && r.Some? ==> r.value.currentStep == response.body.value.currentStep
    ensures r.Some? && r.value.isIdentityVerified ==> r.value.isEmailVerified
  {
    match response
    case NetworkError => None
    case Replied(status, body) =>
      if status != HttpOk then Some(DefaultStatus)
      else if body.None? then None
      else Some(Normalise(body.value))
  }

  /** `tokens.tokenExpires && tokens.tokenExpires < now`: already expired (strictly). */
  predicate Expired(t: Tokens, now: int) {
    t.tokenExpires != 0 && t.tokenExpires < now
  }

  /** `/auth/me` answered 200 with a readable user. */
  predicate UserLoaded(response: Response<User>) {
    response.Replied? && response.status == HttpOk && response.body.Some?
  }

  /** `/auth/me` answered 401. */
  predicate Unauthorized(response: Response<User>) {
    response.Replied? && response.status == HttpUnauthorized
  }

  class Session {
    var isLoaded: bool
    var user: Option<User>
    var verificationStatus: Option<VerificationStatus>
    var isVerificationLoaded: bool
    var isLoggingOut: bool
    /** The device storage holding the token store. */
    const store: KeyValueStore

    /** The state a freshly mounted provider starts in. */
    constructor (store: KeyValueStore)
      ensures this.store == store
      ensures !isLoaded && user.None? && verificationStatus.None? && !isVerificationLoaded && !isLoggingOut
    {
      this.store := store;
      isLoaded := false;
      user := None;
      verificationStatus := None;
      isVerificationLoaded := false;
      isLoggingOut := false;
    }

    /** The in-memory state after a completed logout. */
    ghost predicate LoggedOut()
      reads this
    {
      user.None? && verificationStatus.None? && isVerificationLoaded && !isLoggingOut
    }

    /** The provider's `setTokensInfo`: write the store, and forget the user when tokens are cleared. */
    method SetTokensInfo(tokens: Option<Tokens>)
      modifies this, store
      ensures store.entries == WriteTokens(old(store.entries), tokens, store.writeFails)
      ensures user == if tokens.None? then None else old(user)
      ensures isLoaded == old(isLoaded) && verificationStatus == old(verificationStatus)
      ensures isVerificationLoaded == old(isVerificationLoaded) && isLoggingOut == old(isLoggingOut)
    {
      TokenStore.SetTokensInfo(store, tokens);
      if tokens.None? {
        user := None;
      }
    }

    /**
     * `logOut`, re-entrancy guarded. The logout endpoint is called through the
     * gateway only when an access token is stored; its outcome does not
     * matter, since the endpoint's failure path clears exactly what its
     * success path clears. Returns the request sent to the endpoint, if any,
     * and the navigation issued.
     */
    method LogOut(now: int, refresh: RefreshOutcome) returns (endpointCall: Option<Request>, navigation: Option<Route>)
      modifies this, store
      ensures old(isLoggingOut) ==>
                endpointCall.None? && navigation.None? && store.entries == old(store.entries)
                && isLoggingOut && user == old(user) && verificationStatus == old(verificationStatus)
                && isVerificationLoaded == old(isVerificationLoaded)
      ensures !old(isLoggingOut) ==>
                (endpointCall.Some? <==> HasAccessToken(ReadTokens(old(store.entries), store.readFails)))
                && (endpointCall.Some? ==> endpointCall.value.target == AuthLogout && endpointCall.value.verb == "POST")
                && store.entries == WriteTokens(old(store.entries), None, store.writeFails)
                && LoggedOut() && navigation == Some(AuthEntry)
      ensures isLoaded == old(isLoaded)
    {
      if isLoggingOut {
        return None, None;
      }
      isLoggingOut := true;
      ghost var before := store.entries;
      var tokens := GetTokensInfo(store);
      endpointCall := None;
      if tokens.Some? && tokens.value.token != "" {
        var _, sent := UseFetch(store, AuthLogout, FetchInit("POST", false, map[]), now, refresh);
        endpointCall := Some(sent);
      }
      SetTokensInfo(None);
      LastWriteWins(before, Renewed(tokens, now, refresh), None, store.writeFails);
      user := None;
      verificationStatus := None;
      isVerificationLoaded := true;
      navigation := Some(AuthEntry);
      isLoggingOut := false;
    }

    /** `fetchVerificationStatus`: the status settled on is also returned. */
    method FetchVerificationStatus(now: int, call: Exchange<StatusBody>) returns (status: Option<VerificationStatus>)
      modifies this, store
      ensures isVerificationLoaded && verificationStatus == status
      ensures var t := ReadTokens(old(store.entries), store.readFails);
              if HasAccessToken(t) then
                status == StatusFromResponse(call.response)
                && store.entries == StoreAfterFetch(old(store.entries), store.readFails, store.writeFails, now, call.refresh)
              else
                status.None? && store.entries == old(store.entries)
      ensures isLoaded == old(isLoaded) && user == old(user) && isLoggingOut == old(isLoggingOut)
    {
      var tokens := GetTokensInfo(store);
      if !(tokens.Some? && tokens.value.token != "") {
        verificationStatus := None;
        isVerificationLoaded := true;
        return None;
      }
      var _, _ := UseFetch(store, AuthVerificationStatus, FetchInit("GET", false, map[]), now, call.refresh);
      status := StatusFromResponse(call.response);
      verificationStatus := status;
      isVerificationLoaded := true;
    }

    /** `refreshVerificationStatus`: mark the status as loading, then fetch it again. */
    method RefreshVerificationStatus(now: int, call: Exchange<StatusBody>)
      modifies this, store
      ensures isVerificationLoaded
      ensures var t := ReadTokens(old(store.entries), store.readFails);
              if HasAccessToken(t) then
                verificationStatus == StatusFromResponse(call.response)
                && store.entries == StoreAfterFetch(old(store.entries), store.readFails, store.writeFails, now, call.refresh)
              else
                verificationStatus.None? && store.entries == old(store.entries)
      ensures isLoaded == old(isLoaded) && user == old(user) && isLoggingOut == old(isLoggingOut)
    {
      isVerificationLoaded := false;
      var _ := FetchVerificationStatus(now, call);
    }

    /**
     * `loadData`: read the stored tokens; log out on a locally expired token
     * or a 401; otherwise load the user and then its verification status.
     * Returns the pair it loaded, both null on every failure path, together
     * with the logout endpoint call and the navigation issued by the `logOut`
     * it runs on an expired token or a 401.
     */
    method LoadData(now: int, me: Exchange<User>, statusCall: Exchange<StatusBody>, logoutRefresh: RefreshOutcome)
      returns (loadedUser: Option<User>, loadedStatus: Option<VerificationStatus>,
               logoutCall: Option<Request>, navigation: Option<Route>)
      modifies this, store
      ensures isLoaded && isLoggingOut == old(isLoggingOut)
      // only the logout path calls the logout endpoint and navigates, and only to the entry screen
      ensures logoutCall.Some? ==> logoutCall.value.target == AuthLogout && logoutCall.value.verb == "POST"
      ensures logoutCall.Some? ==> navigation == Some(AuthEntry)
      ensures old(isLoggingOut) ==> logoutCall.None? && navigation.None?
      // no token: nothing to load
      ensures var t := ReadTokens(old(store.entries), store.readFails);
              !HasAccessToken(t) ==>
                loadedUser.None? && loadedStatus.None? && user.None? && verificationStatus.None?
                && isVerificationLoaded && store.entries == old(store.entries)
                && logoutCall.None? && navigation.None?
      // locally expired token: log out without calling /auth/me
      ensures var t := ReadTokens(old(store.entries), store.readFails);
              HasAccessToken(t) && Expired(t.value, now) ==>
                loadedUser.None? && loadedStatus.None?
                && (!old(isLoggingOut) ==>
                      LoggedOut() && store.entries == WriteTokens(old(store.entries), None, store.writeFails)
                      && logoutCall.Some? && navigation == Some(AuthEntry))
      // a live token: the outcome of /auth/me decides
      ensures var t := ReadTokens(old(store.entries), store.readFails);
              var afterMe := StoreAfterFetch(old(store.entries), store.readFails, store.writeFails, now, me.refresh);
              var stillToken := HasAccessToken(ReadTokens(afterMe, store.readFails));
              HasAccessToken(t) && !Expired(t.value, now) ==>
                if Unauthorized(me.response) then
                  loadedUser.None? && loadedStatus.None?
                  && (!old(isLoggingOut) ==>
                        LoggedOut() && store.entries == WriteTokens(old(store.entries), None, store.writeFails)
                        && (logoutCall.Some? <==> stillToken) && navigation == Some(AuthEntry))
                else if UserLoaded(me.response) then
                  loadedUser == me.response.body && user == loadedUser
                  && loadedStatus == verificationStatus && isVerificationLoaded
                  && loadedStatus == (if stillToken then StatusFromResponse(statusCall.response) else None)
                  && store.entries == (if stillToken then StoreAfterFetch(afterMe, store.readFails, store.writeFails, now, statusCall.refresh) else afterMe)
                  && logoutCall.None? && navigation.None?
                else
                  loadedUser.None? && loadedStatus.None? && user.None? && verificationStatus.None?
                  && isVerificationLoaded && store.entries == afterMe
                  && logoutCall.None? && navigation.None?
    {
      loadedUser, loadedStatus, logoutCall, navigation := None, None, None, None;
      var tokens := GetTokensInfo(store);
      if tokens.Some? && tokens.value.token != "" {
        if tokens.value.tokenExpires != 0 && tokens.value.tokenExpires < now {
          logoutCall, navigation := LogOut(now, logoutRefresh);
          isLoaded := true;
          return;
        }
        var _, _ := UseFetch(store, AuthMe, FetchInit("GET", false, map[]), now, me.refresh);
        if me.response.Replied? && me.response.status == HttpUnauthorized {
          logoutCall, navigation := LogOut(now, logoutRefresh);
          isLoaded := true;
          return;
        }
        if me.response.Replied? && me.response.status == HttpOk && me.response.body.Some? {
          loadedUser := me.response.body;
          user := loadedUser;
          loadedStatus := FetchVerificationStatus(now, statusCall);
        } else {
          // another status returns empties; a rejected call or an unreadable body lands in the catch block
          user := None;
          verificationStatus := None;
          isVerificationLoaded := true;
        }
      } else {
        user := None;
        verificationStatus := None;
        isVerificationLoaded := true;
      }
      isLoaded := true;
    }
  }

  /** An OK status body with a known step: the verified flags follow the step order. */
  lemma NormaliseByStep(data: StatusBody)
    ensures data.currentStep == Some(EmailVerified) ==>
              var s := Normalise(data); s.isEmailVerified && !s.isIdentityVerified && s.isFullyVerified == data.isFullyVerified
    ensures data.currentStep == Some(IdentityVerified) ==>
              var s := Normalise(data); s.isEmailVerified && s.isIdentityVerified && s.isFullyVerified == data.isFullyVerified
    ensures data.currentStep == Some(FullyVerified) ==>
              var s := Normalise(data); s.isEmailVerified && s.isIdentityVerified && s.isFullyVerified
    ensures (data.currentStep.None? || data.currentStep.value.Unrecognized?) ==>
              var s := Normalise(data); !s.isEmailVerified && !s.isIdentityVerified && s.isFullyVerified == data.isFullyVerified
  {
  }

  /** Any status other than 200 yields the conservative default; a throw yields null. */
  lemma FailuresYieldDefaultOrNull(response: Response<StatusBody>)
    ensures response.Replied? && response.status != HttpOk ==>
              StatusFromResponse(response) == Some(DefaultStatus)
              && DefaultStatus.currentStep == Some(EmailVerified) && !DefaultStatus.isFullyVerified
              && DefaultStatus.isEmailVerified && !DefaultStatus.isIdentityVerified
    ensures response.NetworkError? ==> StatusFromResponse(response).None?
  {
  }

  /** The default status sends a user with no step of their own to identity-document capture. */
  lemma DefaultStatusRoutesToStep2(user: User)
    requires !IsSet(user.verificationStep)
    ensures GetVerificationRoute(Some(user), Some(DefaultStatus)) == SignUpStep2
  {
  }
}
