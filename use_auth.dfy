/**
 * The `useAuth` hook: one request to the backend's session-verify
 * endpoint per mount, and the `(user, loading)` pair it settles into.
 * The request itself is not modelled; its result is a `VerifyOutcome`.
 */
module UseAuth {
  import opened Common

  /** The user object the verify endpoint returns. */
  datatype AuthUser = AuthUser(id: string, email: string, username: string, isAdmin: bool)

  /**
   * The parsed response body. `authenticated` is the truthiness of the
   * field (an absent field is falsy); `user` is absent when the body has
   * none.
   */
  datatype VerifyBody = VerifyBody(authenticated: bool, user: Option<AuthUser>)

  /**
   * How the request chain ends: a response whose body was parsed, with
   * its HTTP status; or a rejection of the chain (network failure, a body
   * that is not JSON, or a body on which reading the field throws).
   */
  datatype VerifyOutcome = Response(status: int, body: VerifyBody) | Rejected

  datatype AuthState = AuthState(user: Option<AuthUser>, loading: bool)

  const Initial := AuthState(None, true)

  /**
   * The state after the request settles: the body's user when the body
   * says authenticated, no user in every other case; loading is over
   * either way.
   */
  function Settled(outcome: VerifyOutcome): (r: AuthState)
    ensures !r.loading
    ensures r.user.Some? ==> outcome.Response? && outcome.body.authenticated && r.user == outcome.body.user
    ensures outcome.Response? && outcome.body.authenticated ==> r.user == outcome.body.user
  {
    match outcome
    case Response(_, body) => if body.authenticated then AuthState(body.user, false) else AuthState(None, false)
    case Rejected => AuthState(None, false)
  }

  /** Failures are never authenticated: a rejection or a falsy flag gives no user. */
  lemma FailsClosed(outcome: VerifyOutcome)
    requires outcome.Rejected? || !outcome.body.authenticated
    ensures Settled(outcome) == AuthState(None, false)
  {
  }

  /** The HTTP status plays no part: only the body's flag decides. */
  lemma StatusIgnored(s1: int, s2: int, body: VerifyBody)
    ensures Settled(Response(s1, body)) == Settled(Response(s2, body))
  {
  }

  /** The hook's state within one mounted component. */
  class AuthHook {
    var user: Option<AuthUser>
    var loading: bool
    /** How many verify requests this mount has issued. */
    var requests: nat

    /** Mount: the initial state, and the effect's single request. */
    constructor ()
      ensures AuthState(user, loading) == Initial && requests == 1
    {
      user := None;
      loading := true;
      requests := 1;
    }

    /** The `then` or `catch` callback of the one request: it runs once, while loading. */
    method Settle(outcome: VerifyOutcome)
      requires loading
      modifies this
      ensures AuthState(user, loading) == Settled(outcome)
      ensures requests == old(requests)
    {
      match outcome
      case Response(_, body) =>
        if body.authenticated {
          user := body.user;
        } else {
          user := None;
        }
        loading := false;
      case Rejected =>
        user := None;
        loading := false;
    }
  }
}
