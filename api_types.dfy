/**
 * The records exchanged with the backend: the user, the token triple, the
 * verification status, and the abstract shape of a request and a response.
 */
module ApiTypes {
  import opened Wrappers

  /**
   * The server's verification step. The three known steps come from the
   * `verificationStep` union of the user type; a step name the client does
   * not know is kept as `Unrecognized`. A step read from the server is
   * `Unrecognized(n)` only when `n` is none of "email_verified",
   * "identity_verified" and "fully_verified": those three always decode to
   * their own constructors.
   */
  datatype Step = EmailVerified | IdentityVerified | FullyVerified | Unrecognized(name: string)

  /** JavaScript truthiness of an optional step: absent and the empty name are falsy. */
  predicate IsSet(s: Option<Step>) {
    s.Some? && s.value != Unrecognized("")
  }

  /** Position in the order email_verified < identity_verified < fully_verified; 0 for an unknown name. */
  function Rank(s: Step): nat {
    match s
    case Unrecognized(_) => 0
    case EmailVerified => 1
    case IdentityVerified => 2
    case FullyVerified => 3
  }

  /** "The step is `target` or a later one": the order in which the funnel is walked. */
  predicate Reached(s: Option<Step>, target: Step)
    requires !target.Unrecognized?
  {
    s.Some? && Rank(target) <= Rank(s.value)
  }

  /** The part of the server's user record the session logic reads; the rest is carried opaquely. */
  datatype User = User(id: string, email: string, verificationStep: Option<Step>)

  /** The stored session credentials; `tokenExpires` is epoch milliseconds, and 0 reads as absent. */
  datatype Tokens = Tokens(token: string, refreshToken: string, tokenExpires: int)

  /** `tokens?.token` is truthy: a record is stored and its access token is non-empty. */
  predicate HasAccessToken(t: Option<Tokens>) {
    t.Some? && t.value.token != ""
  }

  /** The client's cached summary of the verification funnel. */
  datatype VerificationStatus = VerificationStatus(
    currentStep: Option<Step>,
    nextRoute: Option<string>,
    isFullyVerified: bool,
    isEmailVerified: bool,
    isIdentityVerified: bool,
    message: string)

  /** The backend endpoints the core talks to; the URLs themselves are configuration. */
  datatype Endpoint = AuthRefresh | AuthLogout | AuthMe | AuthVerificationStatus | OtherEndpoint(url: string)

  /** A request as it leaves the client: where, which HTTP method, which headers. */
  datatype Request = Request(target: Endpoint, verb: string, headers: map<string, string>)

  /**
   * What a call brings back: a transport failure (the promise rejects), or a
   * status code with a body; a body of `None` is one whose JSON cannot be read.
   */
  datatype Response<B> = NetworkError | Replied(status: int, body: Option<B>)

  const HttpOk := 200
  const HttpUnauthorized := 401

  /** `response.ok`: a status in the 2xx range. */
  predicate IsOk(status: int) {
    200 <= status <= 299
  }
}
