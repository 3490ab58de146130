/**
 * The sign-in configuration: a GitHub OAuth provider whose credentials
 * come from the environment, a credentials provider whose `authorize`
 * step accepts anything, and a `signIn` callback that lets one GitHub
 * login through.
 */
module AuthConfig {
  import opened Common

  const AllowedLogin := "Jeanikt"
  const SignInPage := "/"

  /** The `account` argument of the callback: which provider signed the user in. */
  datatype Account = Account(provider: string)

  /** The GitHub `profile`; its `login` may be missing. */
  datatype GithubProfile = GithubProfile(login: Option<string>)

  /**
   * `callbacks.signIn`: true only for a GitHub account whose profile login
   * is the allowed one; every other provider, including the credentials
   * one, is refused.
   */
  function SignIn(account: Option<Account>, profile: Option<GithubProfile>): (ok: bool)
    ensures ok <==> account == Some(Account("github")) && profile.Some? && profile.value.login == Some(AllowedLogin)
  {
    if account.Some? && account.value.provider == "github" then
      profile.Some? && profile.value.login == Some(AllowedLogin)
    else
      false
  }

  /** Whatever the `authorize` step returns, the callback refuses a credentials sign-in. */
  lemma CredentialsSignInRejected(profile: Option<GithubProfile>)
    ensures !SignIn(Some(Account("credentials")), profile)
  {
  }

  /** The form's fields; either may be missing, and `credentials` itself may be. */
  datatype Credentials = Credentials(email: Option<string>, password: Option<string>)

  /** The identity `authorize` fabricates. */
  datatype AuthorizedUser = AuthorizedUser(id: string, name: string, email: Option<string>)

  /** `authorize`: never fails; a fixed id and name, and whatever email was given. */
  function Authorize(credentials: Option<Credentials>): (r: AuthorizedUser)
    ensures r.id == "1" && r.name == "John"
    ensures r.email == (if credentials.Some? then credentials.value.email else None)
  {
    AuthorizedUser("1", "John", if credentials.Some? then credentials.value.email else None)
  }

  /** The password plays no part in `authorize`. */
  lemma AuthorizeIgnoresPassword(email: Option<string>, p1: Option<string>, p2: Option<string>)
    ensures Authorize(Some(Credentials(email, p1))) == Authorize(Some(Credentials(email, p2)))
  {
  }

  /** The GitHub provider's client id and secret. */
  datatype GithubOptions = GithubOptions(clientId: string, clientSecret: string)

  /**
   * `process.env.GITHUB_ID ?? ""` and the same for the secret: a missing
   * variable becomes "", a present one, even empty, is used as it is.
   */
  function GithubProviderOptions(env: map<string, string>): (r: GithubOptions)
    ensures "GITHUB_ID" in env ==> r.clientId == env["GITHUB_ID"]
    ensures "GITHUB_ID" !in env ==> r.clientId == ""
    ensures "GITHUB_SECRET" in env ==> r.clientSecret == env["GITHUB_SECRET"]
    ensures "GITHUB_SECRET" !in env ==> r.clientSecret == ""
  {
    GithubOptions(
      if "GITHUB_ID" in env then env["GITHUB_ID"] else "",
      if "GITHUB_SECRET" in env then env["GITHUB_SECRET"] else "")
  }

  /** `authConfig`: the two providers in order, and the custom sign-in page. */
  datatype AuthOptions = AuthOptions(github: GithubOptions, providers: seq<string>, signInPage: string)

  /** The configuration built from the environment. */
  function Config(env: map<string, string>): (c: AuthOptions)
    ensures c.providers == ["github", "credentials"]
    ensures c.github == GithubProviderOptions(env)
    ensures c.signInPage == SignInPage
  {
    AuthOptions(GithubProviderOptions(env), ["github", "credentials"], SignInPage)
  }

  /**
   * Of the configured providers only GitHub can sign anyone in, and then
   * only the allowed login; the page the library shows for signing in is "/".
   */
  lemma OnlyGithubAdmits(env: map<string, string>, provider: string, profile: Option<GithubProfile>)
    requires provider in Config(env).providers
    ensures SignIn(Some(Account(provider)), profile) ==> provider == "github" && profile.Some? && profile.value.login == Some(AllowedLogin)
    ensures Config(env).signInPage == "/"
  {
  }
}
