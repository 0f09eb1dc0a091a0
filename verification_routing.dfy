/**
 * The verification router: which screen a (user, verification status) pair
 * belongs on, and the redirect guard that protected screens run.
 */
module VerificationRouting {
  import opened Wrappers
  import opened ApiTypes

  /** The five screens the router can choose. */
  datatype Route = AuthEntry | Tabs | SignUpStep1 | SignUpStep2 | SignUpStep4

  /** The router path of each screen. */
  function Path(r: Route): string {
    match r
    case AuthEntry => "/(auth)"
    case Tabs => "/(tabs)"
    case SignUpStep1 => "/(auth)/sign-up/step1"
    case SignUpStep2 => "/(auth)/sign-up/step2"
    case SignUpStep4 => "/(auth)/sign-up/step4"
  }

  /** `user.verificationStep === 'fully_verified' || verificationStatus?.isFullyVerified`. */
  predicate IsFullyVerified(user: User, status: Option<VerificationStatus>) {
    user.verificationStep == Some(FullyVerified) || (status.Some? && status.value.isFullyVerified)
  }

  /** `user.verificationStep || verificationStatus?.currentStep`: the user's own step wins when it is set. */
  function CurrentStep(user: User, status: Option<VerificationStatus>): Option<Step> {
    if IsSet(user.verificationStep) then user.verificationStep
    else if status.Some? then status.value.currentStep
    else None
  }

  /** The screen for the step still to be completed. */
  function StepRoute(step: Option<Step>): Route {
    match step
    case Some(EmailVerified) => SignUpStep2
    case Some(IdentityVerified) => SignUpStep4
    case _ => SignUpStep1
  }

  function GetVerificationRoute(user: Option<User>, status: Option<VerificationStatus>): (r: Route)
    ensures r == AuthEntry <==> user.None?
    ensures r == Tabs <==> user.Some? && IsFullyVerified(user.value, status)
    ensures r == SignUpStep2 <==>
              user.Some? && !IsFullyVerified(user.value, status) && CurrentStep(user.value, status) == Some(EmailVerified)
    ensures r == SignUpStep4 <==>
              user.Some? && !IsFullyVerified(user.value, status) && CurrentStep(user.value, status) == Some(IdentityVerified)
    ensures r == SignUpStep1 <==>
              user.Some? && !IsFullyVerified(user.value, status)
              && CurrentStep(user.value, status) != Some(EmailVerified)
              && CurrentStep(user.value, status) != Some(IdentityVerified)
  {
    if user.None? then AuthEntry
    else if IsFullyVerified(user.value, status) then Tabs
    else StepRoute(CurrentStep(user.value, status))
  }

  /**
   * The redirect decision of the `useVerificationRouting` effect: `None` when
   * it returns without navigating, `Some(r)` when it calls `router.replace`.
   */
  function RedirectTarget(
    enabled: Option<bool>, isLoaded: bool, isVerificationLoaded: bool, pathname: Option<string>,
    user: Option<User>, status: Option<VerificationStatus>): (r: Option<Route>)
    // a redirect goes where the router points, never to the main app, and always under `/(auth)`
    ensures r.Some? ==> r.value == GetVerificationRoute(user, status) && r.value != Tabs
    ensures r.Some? ==> Path(AuthEntry) <= Path(r.value)
    // nothing happens until enabled and both loads have finished
    ensures !enabled.GetOr(true) || !isLoaded || !isVerificationLoaded ==> r.None?
  {
    if !enabled.GetOr(true) || !isLoaded || !isVerificationLoaded then None
    else if pathname.Some? && Path(AuthEntry) <= pathname.value then None
    else if user.None? then Some(AuthEntry)
    else if IsFullyVerified(user.value, status) then None
    else Some(StepRoute(CurrentStep(user.value, status)))
  }

  /** With no user the route is the entry screen, whatever the status. */
  lemma NoUserRoutesToEntry(status: Option<VerificationStatus>)
    ensures GetVerificationRoute(None, status) == AuthEntry
  {
  }

  /** A fully verified user, by either signal, goes to the main app. */
  lemma FullyVerifiedRoutesToTabs(user: User, status: Option<VerificationStatus>)
    requires user.verificationStep == Some(FullyVerified) || (status.Some? && status.value.isFullyVerified)
    ensures GetVerificationRoute(Some(user), status) == Tabs
  {
  }

  /** The user's own step takes precedence over the status's step: identity_verified beats email_verified. */
  lemma UserStepTakesPrecedence(user: User, status: VerificationStatus)
    requires user.verificationStep == Some(IdentityVerified)
    requires status.currentStep == Some(EmailVerified) && !status.isFullyVerified
    ensures GetVerificationRoute(Some(user), Some(status)) == SignUpStep4
  {
  }

  /** Without a user step the status's step decides; unknown or absent starts from step 1. */
  lemma StatusStepWhenUserStepUnset(user: User, status: Option<VerificationStatus>)
    requires !IsSet(user.verificationStep) && !(status.Some? && status.value.isFullyVerified)
    ensures GetVerificationRoute(Some(user), status)
         == StepRoute(if status.Some? then status.value.currentStep else None)
  {
  }

  /**
   * The hook idles when disabled, while either load is pending, and on an
   * auth screen; otherwise it redirects where the router points, except that
   * a fully verified user stays put instead of being sent to the main app.
   */
  lemma RedirectAgreesWithRoute(
    enabled: Option<bool>, isLoaded: bool, isVerificationLoaded: bool, pathname: Option<string>,
    user: Option<User>, status: Option<VerificationStatus>)
    ensures var target := RedirectTarget(enabled, isLoaded, isVerificationLoaded, pathname, user, status);
            var route := GetVerificationRoute(user, status);
            if enabled == Some(false) || !isLoaded || !isVerificationLoaded
               || (pathname.Some? && "/(auth)" <= pathname.value)
            then target.None?
            else target == (if route == Tabs then None else Some(route))
  {
  }

  /**
   * Once the reported pathname is the redirect target's own path, the hook
   * idles. Whether the router reports that path, group segment included,
   * after `router.replace` is outside this model.
   */
  lemma RedirectLandsOnAuthPath(
    enabled: Option<bool>, isLoaded: bool, isVerificationLoaded: bool, pathname: Option<string>,
    user: Option<User>, status: Option<VerificationStatus>)
    requires RedirectTarget(enabled, isLoaded, isVerificationLoaded, pathname, user, status).Some?
    ensures var r := RedirectTarget(enabled, isLoaded, isVerificationLoaded, pathname, user, status).value;
            RedirectTarget(enabled, isLoaded, isVerificationLoaded, Some(Path(r)), user, status).None?
  {
  }
}
