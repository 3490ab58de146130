/**
 * The registration form: four text fields and an error line. A submit
 * clears the error, refuses mismatched passwords, and otherwise posts
 * the new account to the backend; the response then either navigates to
 * the feed or puts a message in the error line. The request is not
 * modelled: `Submit` returns the body it would send and `Complete` takes
 * how it ended.
 */
module Register {
  import opened Common

  const MismatchMessage := "As senhas não coincidem."
  const FallbackMessage := "Erro ao registrar."
  const RetryMessage := "Ocorreu um erro ao tentar registrar. Por favor, tente novamente."
  const FeedRoute := "/feed"

  /** `JSON.stringify({ email, username, password })`. */
  datatype RequestBody = RequestBody(email: string, username: string, password: string)

  /** The parsed response body; `message` may be missing. */
  datatype ResponseBody = ResponseBody(message: Option<string>)

  /**
   * How the awaited request ended: a response with its `ok` flag and its
   * body (missing when `response.json()` fails), or a thrown `fetch`.
   */
  datatype RegisterOutcome = Responded(ok: bool, body: Option<ResponseBody>) | Threw

  /** What the page does once the request is over. */
  datatype Verdict = Navigate(route: string) | ShowError(message: string)

  /**
   * The `try` block's ending: navigation to the feed on an ok response
   * that parsed; the server's message (if it is a non-empty string) or
   * the fallback on a parsed error response; the retry message whenever
   * something threw, including an ok response whose body is not JSON.
   */
  function AfterRequest(outcome: RegisterOutcome): (v: Verdict)
    ensures v.Navigate? <==> outcome.Responded? && outcome.ok && outcome.body.Some?
    ensures v.Navigate? ==> v.route == FeedRoute
    ensures (outcome.Threw? || outcome.body.None?) ==> v == ShowError(RetryMessage)
    ensures outcome.Responded? && !outcome.ok && outcome.body.Some? ==>
              v == ShowError(
                     if outcome.body.value.message.Some? && outcome.body.value.message.value != ""
                     then outcome.body.value.message.value else FallbackMessage)
  {
    match outcome
    case Threw => ShowError(RetryMessage)
    case Responded(ok, body) =>
      match body
      case None => ShowError(RetryMessage)
      case Some(b) =>
        if ok then Navigate(FeedRoute)
        else if b.message.Some? && b.message.value != "" then ShowError(b.message.value)
        else ShowError(FallbackMessage)
  }

  /** A failed registration never navigates, and always leaves a non-empty error. */
  lemma FailureShowsError(outcome: RegisterOutcome)
    requires outcome.Threw? || !outcome.ok
    ensures AfterRequest(outcome).ShowError? && AfterRequest(outcome).message != ""
  {
  }

  /** The state of the registration page component. */
  class RegisterPage {
    var email: string
    var username: string
    var password: string
    var confirmPassword: string
    var error: string

    constructor ()
      ensures email == "" && username == "" && password == "" && confirmPassword == "" && error == ""
    {
      email, username, password, confirmPassword, error := "", "", "", "", "";
    }

    /** The four inputs' `onChange` handlers, as one method per field. */
    method SetEmail(value: string)
      modifies this
      ensures email == value && username == old(username) && password == old(password)
      ensures confirmPassword == old(confirmPassword) && error == old(error)
    {
      email := value;
    }

    method SetUsername(value: string)
      modifies this
      ensures username == value && email == old(email) && password == old(password)
      ensures confirmPassword == old(confirmPassword) && error == old(error)
    {
      username := value;
    }

    method SetPassword(value: string)
      modifies this
      ensures password == value && email == old(email) && username == old(username)
      ensures confirmPassword == old(confirmPassword) && error == old(error)
    {
      password := value;
    }

    method SetConfirmPassword(value: string)
      modifies this
      ensures confirmPassword == value && email == old(email) && username == old(username)
      ensures password == old(password) && error == old(error)
    {
      confirmPassword := value;
    }

    /**
     * `handleRegister` up to the awaited request: the error is cleared;
     * mismatched passwords set the mismatch message and send nothing;
     * matching ones send exactly email, username and password.
     */
    method Submit() returns (request: Option<RequestBody>)
      modifies this
      ensures password != confirmPassword ==> error == MismatchMessage && request.None?
      ensures password == confirmPassword ==> error == "" && request == Some(RequestBody(email, username, password))
      ensures email == old(email) && username == old(username)
      ensures password == old(password) && confirmPassword == old(confirmPassword)
    {
      error := "";
      if password != confirmPassword {
        error := MismatchMessage;
        request := None;
        return;
      }
      request := Some(RequestBody(email, username, password));
    }

    /** The rest of `handleRegister`, once the request is over; `navigate` is where the router goes. */
    method Complete(outcome: RegisterOutcome) returns (navigate: Option<string>)
      modifies this
      ensures AfterRequest(outcome).Navigate? ==> navigate == Some(FeedRoute) && error == old(error)
      ensures AfterRequest(outcome).ShowError? ==> navigate.None? && error == AfterRequest(outcome).message
      ensures email == old(email) && username == old(username)
      ensures password == old(password) && confirmPassword == old(confirmPassword)
    {
      match AfterRequest(outcome)
      case Navigate(route) =>
        navigate := Some(route);
      case ShowError(message) =>
        error := message;
        navigate := None;
    }
  }

  /**
   * One submit from start to end: the error seen while the request is in
   * flight is empty; a successful registration goes to the feed with no
   * error; every other ending shows an error and stays.
   */
  method RegisterOnce(page: RegisterPage, outcome: RegisterOutcome)
    returns (attempted: bool, pendingError: string, navigate: Option<string>)
    modifies page
    ensures attempted <==> old(page.password) == old(page.confirmPassword)
    ensures attempted ==> pendingError == ""
    ensures !attempted ==> page.error == MismatchMessage && navigate.None?
    ensures attempted && AfterRequest(outcome).Navigate? ==> navigate == Some(FeedRoute) && page.error == ""
    ensures attempted && AfterRequest(outcome).ShowError? ==> navigate.None? && page.error == AfterRequest(outcome).message
    ensures page.email == old(page.email) && page.username == old(page.username)
    ensures page.password == old(page.password) && page.confirmPassword == old(page.confirmPassword)
  {
    var request := page.Submit();
    pendingError := page.error;
    attempted := request.Some?;
    if attempted {
      navigate := page.Complete(outcome);
    } else {
      navigate := None;
    }
  }
}
