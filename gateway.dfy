/**
 * The authenticated request gateway (`useFetch`): builds the default
 * headers, refreshes the token pair shortly before it expires, and sends the
 * caller's request exactly once. The network is abstract: the refresh call's
 * outcome is a parameter, and the underlying request is returned as sent.
 */
module Gateway {
  import opened Wrappers
  import opened ApiTypes
  import opened Storage
  import opened TokenStore

  /** A token is refreshed when it expires within this many milliseconds. */
  const RefreshMarginMs := 60000

  const LanguageHeader := "x-custom-lang"
  const ContentTypeHeader := "Content-Type"
  const AuthorizationHeader := "Authorization"
  const JsonContentType := "application/json"

  function Bearer(credential: string): string {
    "Bearer " + credential
  }

  /** The caller's options: HTTP method, whether the body is FormData, extra headers. */
  datatype FetchInit = FetchInit(verb: string, bodyIsFormData: bool, headers: map<string, string>)

  /** The refresh endpoint's JSON body; each field may be missing. */
  datatype RefreshBody = RefreshBody(token: Option<string>, refreshToken: Option<string>, tokenExpires: Option<int>)

  type RefreshOutcome = Response<RefreshBody>

  /** One call through the gateway as seen by its caller: the outcome of any refresh it makes, and the response. */
  datatype Exchange<B> = Exchange(refresh: RefreshOutcome, response: Response<B>)

  /** `tokens?.tokenExpires && tokens.tokenExpires - 60000 <= now`. */
  predicate NeedsRefresh(t: Option<Tokens>, now: int) {
    t.Some? && t.value.tokenExpires != 0 && t.value.tokenExpires - RefreshMarginMs <= now
  }

  /**
   * The new token triple a refresh yields, or `None` when it fails: a
   * transport error, a status outside 2xx, an unreadable body, or a body in
   * which one of the three fields is missing or falsy.
   */
  function RefreshedTokens(r: RefreshOutcome): Option<Tokens> {
    match r
    case NetworkError => None
    case Replied(status, body) =>
      if !IsOk(status) || body.None? then None
      else
        var b := body.value;
        if b.token.Some? && b.token.value != ""
           && b.refreshToken.Some? && b.refreshToken.value != ""
           && b.tokenExpires.Some? && b.tokenExpires.value != 0
        then Some(Tokens(b.token.value, b.refreshToken.value, b.tokenExpires.value))
        else None
  }

  /** The token triple this call switches to, if it refreshes and the refresh succeeds. */
  function Renewed(t: Option<Tokens>, now: int, refresh: RefreshOutcome): Option<Tokens> {
    if NeedsRefresh(t, now) then RefreshedTokens(refresh) else None
  }

  /** The storage after one gateway call. */
  function StoreAfterFetch(s: map<string, Entry>, readFails: bool, writeFails: bool, now: int, refresh: RefreshOutcome): map<string, Entry> {
    var t := ReadTokens(s, readFails);
    if NeedsRefresh(t, now) then WriteTokens(s, RefreshedTokens(refresh), writeFails) else s
  }

  /** The default headers, built step by step. */
  method BuildHeaders(tokens: Option<Tokens>, bodyIsFormData: bool) returns (headers: map<string, string>)
    ensures LanguageHeader in headers && headers[LanguageHeader] == "en"
    ensures ContentTypeHeader in headers <==> !bodyIsFormData
    ensures ContentTypeHeader in headers ==> headers[ContentTypeHeader] == JsonContentType
    ensures AuthorizationHeader in headers <==> HasAccessToken(tokens)
    ensures AuthorizationHeader in headers ==> headers[AuthorizationHeader] == Bearer(tokens.value.token)
    ensures headers.Keys <= {LanguageHeader, ContentTypeHeader, AuthorizationHeader}
  {
    headers := map[LanguageHeader := "en"];
    if !bodyIsFormData {
      headers := headers[ContentTypeHeader := JsonContentType];
    }
    if tokens.Some? && tokens.value.token != "" {
      headers := headers[AuthorizationHeader := Bearer(tokens.value.token)];
    }
  }

  /**
   * The refresh step of `useFetch`: when the stored expiry is within the
   * margin, call the refresh endpoint with the refresh token, then store the
   * new triple or clear the store. Returns the triple switched to, if any.
   */
  method RefreshIfDue(store: KeyValueStore, tokens: Option<Tokens>, now: int, refresh: RefreshOutcome)
    returns (refreshCall: Option<Request>, renewed: Option<Tokens>)
    requires tokens == ReadTokens(store.entries, store.readFails)
    modifies store
    ensures refreshCall.Some? <==> NeedsRefresh(tokens, now)
    ensures refreshCall.Some? ==> refreshCall.value == Request(AuthRefresh, "POST",
              map[ContentTypeHeader := JsonContentType, AuthorizationHeader := Bearer(tokens.value.refreshToken)])
    ensures renewed == Renewed(tokens, now, refresh)
    ensures store.entries == StoreAfterFetch(old(store.entries), store.readFails, store.writeFails, now, refresh)
  {
    refreshCall, renewed := None, None;
    if tokens.Some? && tokens.value.tokenExpires != 0 && tokens.value.tokenExpires - RefreshMarginMs <= now {
      ghost var before := store.entries;
      refreshCall := Some(Request(AuthRefresh, "POST",
        map[ContentTypeHeader := JsonContentType, AuthorizationHeader := Bearer(tokens.value.refreshToken)]));
      match refresh {
        case NetworkError =>
          // the rejected fetch lands in the catch block
          SetTokensInfo(store, None);
        case Replied(status, body) =>
          if !IsOk(status) {
            // cleared before throwing, and again in the catch block
            SetTokensInfo(store, None);
            SetTokensInfo(store, None);
            LastWriteWins(before, None, None, store.writeFails);
          } else if body.None? {
            // reading the body throws
            SetTokensInfo(store, None);
          } else if RefreshedTokens(refresh).Some? {
            renewed := RefreshedTokens(refresh);
            SetTokensInfo(store, renewed);
          } else {
            // a field is missing: cleared before throwing, and again in the catch block
            SetTokensInfo(store, None);
            SetTokensInfo(store, None);
            LastWriteWins(before, None, None, store.writeFails);
          }
      }
    }
  }

  method UseFetch(store: KeyValueStore, target: Endpoint, init: FetchInit, now: int, refresh: RefreshOutcome)
    returns (refreshCall: Option<Request>, sent: Request)
    modifies store
    // the refresh is attempted exactly when the stored expiry is within the margin, with the refresh token as credential
    ensures var t := ReadTokens(old(store.entries), store.readFails);
            (refreshCall.Some? <==> NeedsRefresh(t, now))
            && (refreshCall.Some? ==> refreshCall.value == Request(AuthRefresh, "POST",
                  map[ContentTypeHeader := JsonContentType, AuthorizationHeader := Bearer(t.value.refreshToken)]))
    // success stores the new triple, failure clears the store, no refresh leaves it alone
    ensures store.entries == StoreAfterFetch(old(store.entries), store.readFails, store.writeFails, now, refresh)
    // the request itself, sent once, with the caller's headers overriding the defaults
    ensures sent.target == target && sent.verb == init.verb
    ensures forall k :: k in init.headers ==> k in sent.headers && sent.headers[k] == init.headers[k]
    ensures sent.headers.Keys <= {LanguageHeader, ContentTypeHeader, AuthorizationHeader} + init.headers.Keys
    ensures LanguageHeader !in init.headers ==> LanguageHeader in sent.headers && sent.headers[LanguageHeader] == "en"
    ensures ContentTypeHeader !in init.headers ==>
              (ContentTypeHeader in sent.headers <==> !init.bodyIsFormData)
              && (ContentTypeHeader in sent.headers ==> sent.headers[ContentTypeHeader] == JsonContentType)
    ensures var t := ReadTokens(old(store.entries), store.readFails);
            var renewed := Renewed(t, now, refresh);
            AuthorizationHeader !in init.headers ==>
              (AuthorizationHeader in sent.headers <==> renewed.Some? || HasAccessToken(t))
              && (AuthorizationHeader in sent.headers ==>
                    sent.headers[AuthorizationHeader] == Bearer(if renewed.Some? then renewed.value.token else t.value.token))
  {
    var tokens := GetTokensInfo(store);
    var headers := BuildHeaders(tokens, init.bodyIsFormData);
    var renewed;
    refreshCall, renewed := RefreshIfDue(store, tokens, now, refresh);
    if renewed.Some? {
      headers := headers[AuthorizationHeader := Bearer(renewed.value.token)];
    }
    sent := Request(target, init.verb, headers + init.headers);
  }

  /** Exactly 60 s before expiry a refresh is due, at 59 s it is, at 61 s it is not. */
  lemma RefreshBoundary(token: string, refreshToken: string, now: int)
    requires now >= 0
    ensures NeedsRefresh(Some(Tokens(token, refreshToken, now + 59000)), now)
    ensures NeedsRefresh(Some(Tokens(token, refreshToken, now + 60000)), now)
    ensures !NeedsRefresh(Some(Tokens(token, refreshToken, now + 61000)), now)
  {
  }

  /** No stored tokens, or a distant expiry: no refresh, and the storage is untouched. */
  lemma NoRefreshKeepsStore(s: map<string, Entry>, readFails: bool, writeFails: bool, now: int, refresh: RefreshOutcome)
    requires !NeedsRefresh(ReadTokens(s, readFails), now)
    ensures StoreAfterFetch(s, readFails, writeFails, now, refresh) == s
    ensures Renewed(ReadTokens(s, readFails), now, refresh).None?
  {
  }

  /** A successful refresh stores exactly the new triple. */
  lemma RefreshSuccessStoresTriple(s: map<string, Entry>, readFails: bool, now: int, refresh: RefreshOutcome)
    requires NeedsRefresh(ReadTokens(s, readFails), now)
    requires RefreshedTokens(refresh).Some?
    ensures ReadTokens(StoreAfterFetch(s, readFails, false, now, refresh), false) == RefreshedTokens(refresh)
    ensures RefreshedTokens(refresh).value.token != ""
  {
  }

  /** A failed refresh removes the stored record. */
  lemma RefreshFailureClears(s: map<string, Entry>, readFails: bool, now: int, refresh: RefreshOutcome)
    requires NeedsRefresh(ReadTokens(s, readFails), now)
    requires RefreshedTokens(refresh).None?
    ensures AuthTokenKey !in StoreAfterFetch(s, readFails, false, now, refresh)
    ensures ReadTokens(StoreAfterFetch(s, readFails, false, now, refresh), false).None?
  {
  }

  /** A refresh that answers 2xx with all three fields set succeeds; any other outcome fails. */
  lemma RefreshOutcomes(r: RefreshOutcome)
    ensures r.NetworkError? ==> RefreshedTokens(r).None?
    ensures r.Replied? && !IsOk(r.status) ==> RefreshedTokens(r).None?
    ensures r.Replied? && r.body.None? ==> RefreshedTokens(r).None?
    ensures r.Replied? && r.body.Some? && (r.body.value.token.None? || r.body.value.refreshToken.None? || r.body.value.tokenExpires.None?)
            ==> RefreshedTokens(r).None?
    ensures r.Replied? && IsOk(r.status) && r.body.Some? && r.body.value.token.Some? && r.body.value.token.value != ""
            && r.body.value.refreshToken.Some? && r.body.value.refreshToken.value != ""
            && r.body.value.tokenExpires.Some? && r.body.value.tokenExpires.value != 0
            ==> RefreshedTokens(r) == Some(Tokens(r.body.value.token.value, r.body.value.refreshToken.value, r.body.value.tokenExpires.value))
  {
  }
}
