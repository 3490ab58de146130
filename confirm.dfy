/**
 * The email-OTP confirmation route (`GET /auth/confirm`): read
 * `token_hash`, `type` and `next` from the query, ask the auth service to
 * verify the token when both of the first two are given, and redirect.
 * The auth service is not modelled: `verifyError` is what it would
 * answer, and the result records whether it was asked at all.
 */
module Confirm {
  import opened Common

  const ErrorRoute := "/error"
  const DefaultNext := "/"

  /** The one call made to the auth service, with the arguments it gets. */
  datatype OtpRequest = OtpRequest(otpType: string, tokenHash: string)

  datatype Outcome = Outcome(redirect: string, verifyCall: Option<OtpRequest>)

  /** A query parameter in a truthiness test: present and not the empty string. */
  predicate Given(p: Option<string>) {
    p.Some? && p.value != ""
  }

  /**
   * `GET`. `query` holds the first value of each search parameter;
   * `verifyError` is whether `verifyOtp` would report an error.
   */
  function Get(query: map<string, string>, verifyError: bool): (r: Outcome)
    ensures r.verifyCall.Some? <==> Given(Common.Get(query, "token_hash")) && Given(Common.Get(query, "type"))
    ensures r.verifyCall.Some? ==> r.verifyCall.value == OtpRequest(query["type"], query["token_hash"])
    ensures r.redirect != ErrorRoute ==> r.verifyCall.Some? && !verifyError
    ensures r.verifyCall.Some? && !verifyError ==>
              r.redirect == (if "next" in query then query["next"] else DefaultNext)
  {
    var tokenHash := Common.Get(query, "token_hash");
    var otpType := Common.Get(query, "type");
    var next := if "next" in query then query["next"] else DefaultNext;
    if Given(tokenHash) && Given(otpType) then
      var call := OtpRequest(otpType.value, tokenHash.value);
      if !verifyError then Outcome(next, Some(call)) else Outcome(ErrorRoute, Some(call))
    else
      Outcome(ErrorRoute, None)
  }

  /** Without a token hash the route goes to the error page and never asks the auth service. */
  lemma MissingTokenGoesToError(query: map<string, string>, verifyError: bool)
    requires "token_hash" !in query
    ensures Get(query, verifyError) == Outcome(ErrorRoute, None)
  {
  }

  /** Without a type the route goes to the error page and never asks the auth service. */
  lemma MissingTypeGoesToError(query: map<string, string>, verifyError: bool)
    requires "type" !in query
    ensures Get(query, verifyError) == Outcome(ErrorRoute, None)
  {
  }

  /** A verified token with no `next` lands on "/", whatever else the query holds. */
  lemma VerifiedWithoutNextGoesHome(query: map<string, string>)
    requires Given(Common.Get(query, "token_hash")) && Given(Common.Get(query, "type"))
    requires "next" !in query
    ensures Get(query, false).redirect == DefaultNext
  {
  }

  /** A failed verification always lands on the error page, whatever `next` says. */
  lemma FailedVerifyGoesToError(query: map<string, string>)
    ensures Get(query, true).redirect == ErrorRoute
  {
  }
}
