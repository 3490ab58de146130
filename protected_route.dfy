/**
 * The route gate `ProtectedRoute`: a spinner until the component has
 * mounted and the session check is over, then its children; and a
 * redirect to "/" once it is mounted, done loading and has no user.
 *
 * As written, the children are rendered as soon as the gate is mounted
 * and done loading, also when there is no user: the redirect is issued in
 * the same commit, so the guarded children are rendered for the
 * unauthenticated caller until the navigation takes effect.
 */
module ProtectedRoute {
  import opened Common
  import UseAuth

  const LoginRoute := "/"

  datatype View = Spinner | Children

  /** What the gate renders; the user plays no part. */
  function Render(isMounted: bool, loading: bool): (v: View)
    ensures v == Spinner <==> !isMounted || loading
  {
    if !isMounted || loading then Spinner else Children
  }

  /** What the redirect effect does on a commit with this state. */
  function RedirectFor(isMounted: bool, loading: bool, user: Option<UseAuth.AuthUser>): (r: Option<string>)
    ensures r.Some? <==> isMounted && !loading && user.None?
    ensures r.Some? ==> r.value == LoginRoute
  {
    if isMounted && !loading && user.None? then Some(LoginRoute) else None
  }

  /** With a user present there is never a redirect, whatever else holds. */
  lemma NoRedirectWithUser(isMounted: bool, loading: bool, u: UseAuth.AuthUser)
    ensures RedirectFor(isMounted, loading, Some(u)).None?
  {
  }

  /** While the spinner shows there is no redirect: nothing flickers before the check is over. */
  lemma SpinnerNeverRedirects(isMounted: bool, loading: bool, user: Option<UseAuth.AuthUser>)
    requires Render(isMounted, loading) == Spinner
    ensures RedirectFor(isMounted, loading, user).None?
  {
  }

  /** Every redirect comes with the children rendered in the same commit. */
  lemma RedirectRendersChildren(isMounted: bool, loading: bool, user: Option<UseAuth.AuthUser>)
    requires RedirectFor(isMounted, loading, user).Some?
    ensures Render(isMounted, loading) == Children
  {
  }

  class Gate {
    var isMounted: bool
    const auth: UseAuth.AuthHook

    /** The first render: not mounted, and the session hook starts its request. */
    constructor ()
      ensures !isMounted && fresh(auth)
      ensures auth.user.None? && auth.loading && auth.requests == 1
    {
      isMounted := false;
      auth := new UseAuth.AuthHook();
    }

    function CurrentView(): View
      reads this, auth
    {
      Render(isMounted, auth.loading)
    }

    /** The mount effect: `isMounted` becomes true, once; then the redirect effect runs. */
    method Mount() returns (redirect: Option<string>)
      requires !isMounted
      modifies this
      ensures isMounted
      ensures redirect == RedirectFor(isMounted, auth.loading, auth.user)
    {
      isMounted := true;
      redirect := RedirectFor(isMounted, auth.loading, auth.user);
    }

    /** The session request settles; then the redirect effect runs. */
    method Settle(outcome: UseAuth.VerifyOutcome) returns (redirect: Option<string>)
      requires auth.loading
      modifies auth
      ensures UseAuth.AuthState(auth.user, auth.loading) == UseAuth.Settled(outcome)
      ensures auth.requests == old(auth.requests)
      ensures redirect == RedirectFor(isMounted, auth.loading, auth.user)
    {
      auth.Settle(outcome);
      redirect := RedirectFor(isMounted, auth.loading, auth.user);
    }
  }

  /** The navigations one run of the redirect effect issued. */
  function Issued(r: Option<string>): seq<string> {
    match r
    case Some(route) => [route]
    case None => []
  }

  /**
   * One mount of the gate from first render to settled session: a single
   * verify request; a spinner until both mount and check are done; then
   * the children, with the user exactly as the body gave it when
   * authenticated, and one redirect to "/" exactly when no user resulted.
   */
  method MountAndVerify(outcome: UseAuth.VerifyOutcome, mountFirst: bool)
    returns (before: View, after: View, redirects: seq<string>, user: Option<UseAuth.AuthUser>, requests: nat)
    ensures before == Spinner && after == Children
    ensures user == UseAuth.Settled(outcome).user && requests == 1
    ensures redirects == (if user.None? then [LoginRoute] else [])
    ensures outcome.Rejected? ==> user.None?
  {
    var gate := new Gate();
    var r1: Option<string>;
    var r2: Option<string>;
    if mountFirst {
      r1 := gate.Mount();
      before := gate.CurrentView();
      r2 := gate.Settle(outcome);
    } else {
      r1 := gate.Settle(outcome);
      before := gate.CurrentView();
      r2 := gate.Mount();
    }
    after := gate.CurrentView();
    redirects := Issued(r1) + Issued(r2);
    user := gate.auth.user;
    requests := gate.auth.requests;
  }
}
