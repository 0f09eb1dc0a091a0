/**
 * The start screen's effect: wait until both the user and the verification
 * status are loaded, then navigate once to the router's choice.
 */
module IndexScreen {
  import opened Wrappers
  import opened ApiTypes
  import opened VerificationRouting

  /** The provider state the effect sees on one run. */
  datatype AuthSnapshot = AuthSnapshot(isLoaded: bool, isVerificationLoaded: bool, user: Option<User>, status: Option<VerificationStatus>)

  predicate Ready(s: AuthSnapshot) {
    s.isLoaded && s.isVerificationLoaded
  }

  class StartScreen {
    /** The `hasNavigated` ref: survives re-renders of one mount. */
    var hasNavigated: bool

    constructor ()
      ensures !hasNavigated
    {
      hasNavigated := false;
    }

    /** One run of the effect: the navigation it issues, if any. */
    method RunEffect(s: AuthSnapshot) returns (navigation: Option<Route>)
      modifies this
      ensures !Ready(s) ==> navigation.None? && hasNavigated == old(hasNavigated)
      ensures Ready(s) && old(hasNavigated) ==> navigation.None? && hasNavigated
      ensures Ready(s) && !old(hasNavigated) ==> navigation == Some(GetVerificationRoute(s.user, s.status)) && hasNavigated
    {
      if !s.isLoaded || !s.isVerificationLoaded {
        return None;
      }
      if hasNavigated {
        return None;
      }
      var target := GetVerificationRoute(s.user, s.status);
      hasNavigated := true;
      navigation := Some(target);
    }
  }

  /**
   * One mount of the screen followed by the effect runs that React makes as
   * the provider state changes: at most one navigation, never before both
   * loads finish, to the router's choice, on the first run that is ready.
   */
  method Mount(runs: seq<AuthSnapshot>) returns (navigations: seq<Option<Route>>)
    ensures |navigations| == |runs|
    ensures forall i, j :: 0 <= i < |navigations| && 0 <= j < |navigations| && navigations[i].Some? && navigations[j].Some? ==> i == j
    ensures forall i :: 0 <= i < |runs| && navigations[i].Some? ==>
              Ready(runs[i]) && navigations[i].value == GetVerificationRoute(runs[i].user, runs[i].status)
    ensures forall i :: 0 <= i < |runs| && Ready(runs[i]) && (forall j :: 0 <= j < i ==> !Ready(runs[j])) ==>
              navigations[i].Some?
  {
    var screen := new StartScreen();
    navigations := [];
    var k := 0;
    while k < |runs|
      invariant 0 <= k <= |runs| && |navigations| == k
      invariant screen.hasNavigated <==> exists j :: 0 <= j < k && Ready(runs[j])
      invariant forall i :: 0 <= i < k && navigations[i].Some? ==>
                  Ready(runs[i]) && navigations[i].value == GetVerificationRoute(runs[i].user, runs[i].status)
                  && forall j :: 0 <= j < i ==> !Ready(runs[j])
      invariant forall i :: 0 <= i < k && Ready(runs[i]) && (forall j :: 0 <= j < i ==> !Ready(runs[j])) ==>
                  navigations[i].Some?
    {
      var navigation := screen.RunEffect(runs[k]);
      navigations := navigations + [navigation];
      k := k + 1;
    }
  }
}
