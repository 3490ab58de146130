# UniConnect state logic in Dafny

UniConnect is a prototype social network written as a React/Next.js app.
Its logic lives in the state handlers of its pages and shell components.
This project models those handlers and proves what they guarantee:

- the feed's like, repost and create-post operations on the post list;
- the communities and messages pages' list and draft handlers;
- the profile edit/save/cancel cycle;
- the post composer dialog and its discard confirmation;
- the application shell (dropdown, composer flag, notification, logout, dark class);
- the theme/language preference store over local storage;
- the session hook `useAuth` and the route gate `ProtectedRoute`;
- the sign-in configuration (allow-list callback, stub authoriser, provider options);
- the email-OTP confirmation route;
- the registration form.

Each component with state is a `class` whose fields are the component's
`useState` variables. Each handler is a method that overwrites those
fields. The list transforms and decisions are functions, and the lemmas
are proved about those functions. Browser state that handlers write
(local storage, the `dark` class, `lang`) is in module `Browser`.
Network and library calls are not modelled. Their results come in as
outcome datatypes (`UseAuth.VerifyOutcome`, `Register.RegisterOutcome`,
the `verifyError` flag of `Confirm.Get`). Callbacks and navigation come
out as returned values (`PostModal.Effects`, `navigate`, `redirect`).

Modules: `Common` (Option, JavaScript white space and `trim`, uniqueness
of "length + 1" ids), `Browser`, `Feed`, `PagePosts` (the post list that
the communities and messages pages share), `Communities`, `Messages`,
`Profile`, `PostModal`, `Layout`, `AppContext`, `UseAuth`,
`ProtectedRoute`, `AuthConfig`, `Confirm`, `Register`.

Three behaviours of the program are worth knowing before the table:

- **Children are rendered while the redirect is issued.** Once mounted
  and done loading, the gate renders its children whether or not there
  is a user. The redirect to "/" is issued in the same commit
  (`ProtectedRoute.RedirectRendersChildren`, `ProtectedRoute.MountAndVerify`).
- **The HTTP status is ignored.** The session hook never reads the
  response status, so a truthy `authenticated` flag authenticates whatever
  the status (`UseAuth.StatusIgnored`). The hook never reads a token from
  storage; it issues exactly one request per mount.
- **Stored preferences are not checked.** Theme and language are typed as
  two-value enums, but a stored value is adopted unchecked. Both are
  strings in the model:
  - toggling the theme twice is the identity only on "light" and "dark";
  - an unknown stored language finds no entry of its own in the messages
    page's translation table (`AppContext.StoredLanguageNotValidated`).
    The lookup is a plain object-literal index, so a name inherited from
    `Object.prototype` ("constructor", "toString", "__proto__", ...) finds
    an inherited member, and the page renders with `undefined` labels.
    Any other unknown string finds `undefined`, and the page then fails
    reading `t.messages`.

## Model

| member | source | states |
|---|---|---|
| `Common.Trim` | src/components/ui/PostModal.tsx:24 | `trim` never lengthens the string, and neither end of a non-empty result is white space |
| `Common.BlankIffAllWhiteSpace` | src/app/communities/page.tsx:53 | `s.trim()` is empty exactly when every character of `s` is ECMAScript white space, in both directions |
| `Common.IsBlank` | src/app/messages/page.tsx:55 | the falsy case of `s.trim()` in a condition holds exactly for strings of white space only, the empty string included |
| `Common.TrimIsInfix` | src/components/ui/PostModal.tsx:24 | `trim` returns a contiguous middle part of the string with white space only before and after it |
| `Common.OneToNIsRange` | src/app/feed/page.tsx:70 | unique ids that all lie in 1..n are exactly the set {1..n} |
| `Common.PrependNextId` | src/app/feed/page.tsx:70 | putting id n+1 in front of ids 1..n gives ids 1..n+1 |
| `Common.AppendNextId` | src/app/communities/page.tsx:55 | putting id n+1 behind ids 1..n gives ids 1..n+1 |
| `Feed.ToggleLike` | src/app/feed/page.tsx:98-102 | the matching post's `liked` flips, `likes` follows it by one, no other field changes, and consistent counters stay consistent |
| `Feed.LikeById` | src/app/feed/page.tsx:94-106 | same length and order; posts with another id are unchanged; a matching post has `liked` flipped, `likes` one up if it became liked and one down otherwise, and every other field kept |
| `Feed.LikeTwiceRestores` | src/app/feed/page.tsx:94-106 | liking the same id twice gives back the original list |
| `Feed.LikeKeepsRetweetsAndIds` | src/app/feed/page.tsx:97-102 | a like leaves ids (so order), repost flag, repost count and content of every post unchanged |
| `Feed.LikeKeepsCounts` | src/app/feed/page.tsx:100-101 | if every post has `likes >= 0` and `liked ==> likes >= 1` (same for reposts), a like keeps that |
| `Feed.ToggleRetweet` | src/app/feed/page.tsx:112-116 | the matching post's `retweeted` flips, `retweets` follows it by one, no other field changes, and consistent counters stay consistent |
| `Feed.RetweetById` | src/app/feed/page.tsx:108-120 | same length and order; posts with another id are unchanged; a matching post has `retweeted` flipped and `retweets` moved one step the same way, every other field kept |
| `Feed.RetweetTwiceRestores` | src/app/feed/page.tsx:108-120 | reposting the same id twice gives back the original list |
| `Feed.RetweetKeepsLikesAndIds` | src/app/feed/page.tsx:111-116 | a repost leaves ids, like flag, like count and content of every post unchanged |
| `Feed.RetweetKeepsCounts` | src/app/feed/page.tsx:114-115 | a repost keeps the counter invariant |
| `Feed.LikeRetweetCommute` | src/app/feed/page.tsx:94-120 | a like and a repost commute |
| `Feed.PrependPost` | src/app/feed/page.tsx:66-80 | exactly one post is added, in front, with the old list behind it; id old length + 1, author and handle from the user, the given content, zero counters, both flags false |
| `Feed.PrependKeepsIdsOneToN` | src/app/feed/page.tsx:69-80 | ids 1..n before a create are ids 1..n+1 after it, so they stay unique |
| `Feed.PrependKeepsCounts` | src/app/feed/page.tsx:73-78 | a create keeps the counter invariant |
| `Feed.InitialPosts` | src/app/feed/page.tsx:38-61 | the two sample posts have ids 1..2 and consistent counters |
| `Feed.FeedPage.constructor` | src/app/feed/page.tsx:31-64 | initial user, the sample posts, empty notification and draft; the page invariant holds |
| `Feed.FeedPage.SetNewPostContent` | src/app/feed/page.tsx:138 | the draft becomes the input's value; posts and notification are unchanged |
| `Feed.FeedPage.CreatePost` | src/app/feed/page.tsx:66-83 | posts become `PrependPost` of the old posts; the draft is ""; the notification is "Post published successfully!"; ids 1..n and counter invariants kept |
| `Feed.FeedPage.PublishDraft` | src/app/feed/page.tsx:141-143 | the Post button acts only on a draft that is not blank, and then publishes the draft as typed |
| `Feed.FeedPage.Like` | src/app/feed/page.tsx:94-106 | posts become `LikeById` of the old posts; the draft and notification are unchanged; invariants kept |
| `Feed.FeedPage.Retweet` | src/app/feed/page.tsx:108-120 | posts become `RetweetById` of the old posts; nothing else changes; invariants kept |
| `PagePosts.PrependPost` | src/app/communities/page.tsx:63-74 | one post in front, id old length + 1, author "Current User" and handle "@current_user", no likes or comments, not liked |
| `PagePosts.PrependKeepsIdsOneToN` | src/app/messages/page.tsx:64-75 | the page's post ids stay 1..n |
| `Communities.InitialCommunities` | src/app/communities/page.tsx:21-26 | the four initial communities have ids 1..4 |
| `Communities.CreateCommunity` | src/app/communities/page.tsx:51-62 | a blank name leaves list and input unchanged; any other name is appended untrimmed, at the end, as a one-member community with id old length + 1, the old list unchanged in front, and the input cleared |
| `Communities.InputClearedOnlyOnCreate` | src/app/communities/page.tsx:53-61 | a non-empty input is cleared exactly when a community is added |
| `Communities.WhiteSpaceNameRejected` | src/app/communities/page.tsx:53 | a name of white space only changes nothing |
| `Communities.CreateKeepsIdsOneToN` | src/app/communities/page.tsx:54-59 | ids 1..n stay ids 1..n (or 1..n+1) after a create |
| `Communities.CommunitiesPage.constructor` | src/app/communities/page.tsx:19-49 | the initial communities, no posts, an empty input; ids 1..n hold |
| `Communities.CommunitiesPage.SetNewCommunity` | src/app/communities/page.tsx:106 | the input becomes the typed value; the lists are unchanged |
| `Communities.CommunitiesPage.SubmitCommunity` | src/app/communities/page.tsx:51-62 | the list and input become `CreateCommunity` of the old ones; posts are unchanged; ids stay 1..n |
| `Communities.CommunitiesPage.CreatePost` | src/app/communities/page.tsx:63-74 | posts become `PagePosts.PrependPost` of the old posts; communities and input are unchanged |
| `Messages.Translations` | src/app/messages/page.tsx:38-51 | the lookup finds an own entry exactly for "pt-BR" and "en-US", each with non-empty `messages`, `typeMessage` and `send`; an inherited member exactly for the twelve `Object.prototype` names; nothing for every other string |
| `Messages.SendLog` | src/app/messages/page.tsx:57-59 | the console line is "Sending message to ", the recipient's name, ": " and the message exactly as typed |
| `Messages.Send` | src/app/messages/page.tsx:53-62 | a message goes out (with its console line) exactly when the draft is not blank and a conversation is selected, and then the draft is ""; otherwise the draft is kept as it was |
| `Messages.DraftClearedOnlyBySending` | src/app/messages/page.tsx:55-60 | a non-empty draft is cleared exactly when a message goes out |
| `Messages.MessagesPage.constructor` | src/app/messages/page.tsx:23-36 | the two fixed conversations (a `const`: no handler can change them), no selection, empty draft, no posts |
| `Messages.MessagesPage.Select` | src/app/messages/page.tsx:91 | only a listed conversation can be clicked; it becomes the selected one, nothing else changes, and the selection stays one of the listed conversations |
| `Messages.MessagesPage.SetNewMessage` | src/app/messages/page.tsx:124 | the draft becomes the typed value; nothing else changes |
| `Messages.MessagesPage.SendMessage` | src/app/messages/page.tsx:53-62 | draft and console line are those of `Send`; selection and posts are unchanged |
| `Messages.MessagesPage.CreatePost` | src/app/messages/page.tsx:64-75 | posts become `PagePosts.PrependPost` of the old posts; post ids stay 1..n |
| `Profile.WithName` | src/app/profile/page.tsx:184-189 | the name edit changes only the name: bio, username, avatar and the three counters are kept |
| `Profile.WithBio` | src/app/profile/page.tsx:200-205 | the bio edit changes only the bio |
| `Profile.NameAndBioCommute` | src/app/profile/page.tsx:184-205 | name and bio edits do not interfere |
| `Profile.LastNameWins` | src/app/profile/page.tsx:184-189 | after two name edits only the second one counts |
| `Profile.InitialProfile` | src/app/profile/page.tsx:43-51 | the starting profile has a name, an "@" handle and counters that are not negative |
| `Profile.ProfilePage.constructor` | src/app/profile/page.tsx:43-55 | the initial profile, an edited copy equal to it, not editing |
| `Profile.ProfilePage.Edit` | src/app/profile/page.tsx:101-103 | edit mode is on; profile and edited copy are unchanged |
| `Profile.ProfilePage.Save` | src/app/profile/page.tsx:105-109 | the profile becomes the edited copy and edit mode is off; username, avatar and counters are unchanged |
| `Profile.ProfilePage.Cancel` | src/app/profile/page.tsx:111-114 | the edited copy goes back to the profile, which is unchanged, and edit mode is off |
| `Profile.ProfilePage.EditName` | src/app/profile/page.tsx:184-189 | the edited copy becomes `WithName` of itself; profile and mode are unchanged |
| `Profile.ProfilePage.EditBio` | src/app/profile/page.tsx:200-205 | the edited copy becomes `WithBio` of itself; profile and mode are unchanged |
| `Profile.EditSession` | src/app/profile/page.tsx:101-114 | after edits ending in save or cancel, profile and edited copy are equal, the fixed fields are as before, save keeps the edits and cancel drops them |
| `PostModal.Remaining` | src/components/ui/PostModal.tsx:73 | the remaining count is at most 300, exactly 300 for the empty draft, and not negative within the cap |
| `PostModal.IsLow` | src/components/ui/PostModal.tsx:74 | the count is shown as low exactly when the draft has more than 250 characters |
| `PostModal.RemainingBounds` | src/components/ui/PostModal.tsx:73-110 | within the 300-character cap the remaining count lies in 0..300, is 300 only for the empty draft, and falls by one per typed character |
| `PostModal.Render` | src/components/ui/PostModal.tsx:71-74 | nothing is rendered while closed; otherwise remaining + length = 300, low iff length > 250, and the confirmation flag is shown as it is |
| `PostModal.Composer.constructor` | src/components/ui/PostModal.tsx:19-20 | empty draft, no confirmation |
| `PostModal.Composer.SetDraft` | src/components/ui/PostModal.tsx:104-111 | the draft becomes the typed value, which the textarea keeps within 300 characters |
| `PostModal.Composer.Submit` | src/components/ui/PostModal.tsx:22-29 | a draft that is not blank goes once to `onCreatePost` untrimmed, then `onClose`, and the draft becomes ""; a blank draft makes no call and changes nothing |
| `PostModal.Composer.Close` | src/components/ui/PostModal.tsx:31-38 | a non-empty draft, white space only included, opens the confirmation and does not close; an empty draft calls `onClose` without asking |
| `PostModal.Composer.ConfirmDiscard` | src/components/ui/PostModal.tsx:40-44 | draft "", `onClose` called, confirmation hidden |
| `PostModal.Composer.CancelDiscard` | src/components/ui/PostModal.tsx:46-48 | only the confirmation is hidden; the draft stays |
| `PostModal.Composer.KeyDown` | src/components/ui/PostModal.tsx:50-55 | Escape has exactly the effect of `Close`; any other key does nothing |
| `Layout.Shell.constructor` | src/components/Layout.tsx:85-87 | dropdown and composer closed, no notification |
| `Layout.Shell.ToggleDropdown` | src/components/Layout.tsx:174 | the dropdown flag flips (so two toggles restore it); nothing else changes |
| `Layout.Shell.OpenModal` | src/components/Layout.tsx:129 | the Postar button opens the composer |
| `Layout.Shell.CloseModal` | src/components/Layout.tsx:186 | the composer's `onClose` closes it |
| `Layout.Shell.HandleCreatePost` | src/components/Layout.tsx:94-99 | the content goes unchanged to `onPostCreated`, the notification is "Post publicado com sucesso!" and the composer is closed |
| `Layout.Shell.Dispatch` | src/components/Layout.tsx:184-189 | the composer's callbacks reach the shell's handlers: content to `onPostCreated`, and the composer is closed iff a post was created or `onClose` was called |
| `Layout.Shell.Logout` | src/components/Layout.tsx:101-104 | only the "userToken" key leaves storage, and the route becomes "/" |
| `Layout.Shell.SyncTheme` | src/components/Layout.tsx:90-92 | the root has the `dark` class iff the theme is "dark" |
| `Layout.SubmitComposer` | src/components/Layout.tsx:94-97 | a submit of a draft that is not blank publishes it exactly once, clears it, closes the composer and shows the notification; a blank one publishes nothing and leaves draft, composer and notification as they were; the dropdown and the confirmation flag never change |
| `Layout.CloseComposer` | src/components/Layout.tsx:186 | Cancelar or Escape closes the composer iff the draft is empty, leaving the confirmation flag as it was; otherwise the confirmation is up; the draft, dropdown and notification never change; while the composer is closed its draft is empty, so Escape then changes nothing |
| `Layout.DiscardComposer` | src/components/Layout.tsx:184-188 | confirming the discard closes the composer with an empty draft and the confirmation hidden; the notification and dropdown do not change |
| `Browser.Storage.GetItem` | src/contexts/AppContext.tsx:34 | the stored string, or nothing when the key is absent |
| `Browser.Storage.SetItem` | src/contexts/AppContext.tsx:45 | the key maps to the value; other keys are unchanged |
| `Browser.Storage.RemoveItem` | src/components/Layout.tsx:102 | the key is removed and every other key keeps its value |
| `Browser.Document.ToggleDark` | src/contexts/AppContext.tsx:46 | the `dark` class is set to the forced value |
| `Browser.Document.SetLang` | src/contexts/AppContext.tsx:51 | the document language becomes the value |
| `AppContext.NextTheme` | src/contexts/AppContext.tsx:54-56 | the result is "light" or "dark", and "dark" exactly when the old theme was "light" |
| `AppContext.ToggleTwiceIffKnownTheme` | src/contexts/AppContext.tsx:54-56 | toggling twice is the identity exactly on "light" and "dark" |
| `AppContext.Restore` | src/contexts/AppContext.tsx:33-41 | a stored value replaces the current one exactly when it is present and not empty |
| `AppContext.StoredLanguageNotValidated` | src/contexts/AppContext.tsx:38-41 | any non-empty stored language other than "pt-BR" and "en-US" is adopted as it is; the messages page's table then has no own entry for it, and finds nothing at all unless it is an `Object.prototype` name |
| `AppContext.UseAppContext` | src/contexts/AppContext.tsx:17-23 | fails with "useAppContext must be used within an AppProvider" exactly when there is no provider, and returns the provided value otherwise |
| `AppContext.ProvidedBehindGate` | src/contexts/AppContext.tsx:58-66 | the context exists exactly when the route gate renders its children; otherwise the spinner shows and no page is rendered |
| `AppContext.ContextOnlyBehindGate` | src/contexts/AppContext.tsx:58-66 | page code runs exactly when the gate is mounted and done loading, and then `useAppContext` returns the provider's value, so it never throws in this app |
| `AppContext.AppProvider.constructor` | src/contexts/AppContext.tsx:30-31 | initial theme "light" and language "pt-BR" |
| `AppContext.AppProvider.Mount` | src/contexts/AppContext.tsx:33-52 | theme and language are restored from what was stored before the mount; then both are written back and reflected on the document; no other storage key changes |
| `AppContext.AppProvider.ToggleTheme` | src/contexts/AppContext.tsx:44-56 | the theme becomes `NextTheme` of the old one; only the theme key is rewritten; storage, `dark` class and `lang` stay in step with the state |
| `AppContext.AppProvider.SetLanguage` | src/contexts/AppContext.tsx:49-52 | the language becomes the value; only the language key is rewritten; storage and `lang` stay in step |
| `UseAuth.Settled` | src/hooks/useAuth.ts:14-26 | loading ends; the user is the body's user when the flag is truthy; there is no user in every other case |
| `UseAuth.FailsClosed` | src/hooks/useAuth.ts:18-26 | a rejection of any kind, or a falsy or absent flag, gives no user and loading false |
| `UseAuth.StatusIgnored` | src/hooks/useAuth.ts:14-16 | two responses with the same body and any statuses give the same state |
| `UseAuth.AuthHook.constructor` | src/hooks/useAuth.ts:5-13 | user null, loading true, exactly one request issued |
| `UseAuth.AuthHook.Settle` | src/hooks/useAuth.ts:15-26 | the state becomes `Settled` of the outcome; no further request |
| `ProtectedRoute.Render` | src/components/ProtectedRoute.tsx:24-32 | the spinner exactly when not mounted or loading, the children otherwise, whatever the user |
| `ProtectedRoute.RedirectFor` | src/components/ProtectedRoute.tsx:18-22 | a redirect, to "/", exactly when mounted, not loading and without a user |
| `ProtectedRoute.NoRedirectWithUser` | src/components/ProtectedRoute.tsx:19 | never a redirect while a user is present |
| `ProtectedRoute.SpinnerNeverRedirects` | src/components/ProtectedRoute.tsx:18-30 | no redirect while the spinner shows |
| `ProtectedRoute.RedirectRendersChildren` | src/components/ProtectedRoute.tsx:18-32 | every redirect is issued in a commit that also renders the children |
| `ProtectedRoute.Gate.constructor` | src/components/ProtectedRoute.tsx:10-12 | not mounted; the session hook has started its one request |
| `ProtectedRoute.Gate.Mount` | src/components/ProtectedRoute.tsx:14-22 | `isMounted` goes from false to true, and the redirect effect runs on the new state |
| `ProtectedRoute.Gate.Settle` | src/components/ProtectedRoute.tsx:18-22 | the hook settles on the outcome, and the redirect effect runs on the new state |
| `ProtectedRoute.MountAndVerify` | src/components/ProtectedRoute.tsx:10-32 | in either order of mount and settle: one request; spinner before both are done; children after; the user as the body gave it; one redirect to "/" exactly when no user resulted; never a user after a rejection |
| `AuthConfig.SignIn` | src/lib/auth.config.ts:27-33 | true exactly for a "github" account whose profile login is "Jeanikt"; false for a missing profile or login, any other login, and any other provider |
| `AuthConfig.CredentialsSignInRejected` | src/lib/auth.config.ts:32 | a credentials sign-in is always refused by the callback |
| `AuthConfig.Authorize` | src/lib/auth.config.ts:16-23 | never fails; id "1", name "John", and the given email (missing when no credentials) |
| `AuthConfig.AuthorizeIgnoresPassword` | src/lib/auth.config.ts:16-22 | the password makes no difference |
| `AuthConfig.GithubProviderOptions` | src/lib/auth.config.ts:7-10 | client id and secret are the environment's values, or "" when a variable is missing |
| `AuthConfig.Config` | src/lib/auth.config.ts:5-38 | the providers are GitHub then credentials, GitHub with the environment's options, and the sign-in page is "/" |
| `AuthConfig.OnlyGithubAdmits` | src/lib/auth.config.ts:26-37 | of the configured providers only GitHub signs anyone in, and only the allowed login; the sign-in page is "/" |
| `Confirm.Get` | src/app/auth/confirm/route.ts:7-30 | verify is called, with the query's type and token hash, exactly when both are given; success redirects to `next` or "/" when it is absent; every other path redirects to "/error" |
| `Confirm.MissingTokenGoesToError` | src/app/auth/confirm/route.ts:13-29 | no `token_hash`: "/error" and no verify call |
| `Confirm.MissingTypeGoesToError` | src/app/auth/confirm/route.ts:13-29 | no `type`: "/error" and no verify call |
| `Confirm.VerifiedWithoutNextGoesHome` | src/app/auth/confirm/route.ts:11-24 | for any query with a token hash and a type but no `next`, a successful verification redirects to "/" |
| `Confirm.FailedVerifyGoesToError` | src/app/auth/confirm/route.ts:17-29 | a verify error always redirects to "/error" |
| `Register.AfterRequest` | src/app/register/page.tsx:56-68 | navigation to "/feed" exactly for an ok response whose body parsed; on a parsed error response, the server's message if it is non-empty, else "Erro ao registrar."; the retry message whenever something threw |
| `Register.FailureShowsError` | src/app/register/page.tsx:58-68 | a failed registration never navigates and always shows a non-empty error |
| `Register.RegisterPage.constructor` | src/app/register/page.tsx:30-34 | all fields empty |
| `Register.RegisterPage.SetEmail` | src/app/register/page.tsx:106 | only the email changes |
| `Register.RegisterPage.SetUsername` | src/app/register/page.tsx:117 | only the username changes |
| `Register.RegisterPage.SetPassword` | src/app/register/page.tsx:128 | only the password changes |
| `Register.RegisterPage.SetConfirmPassword` | src/app/register/page.tsx:139 | only the confirmation changes |
| `Register.RegisterPage.Submit` | src/app/register/page.tsx:37-54 | the error is cleared; mismatched passwords set "As senhas não coincidem." and send nothing; otherwise the body is exactly email, username and password |
| `Register.RegisterPage.Complete` | src/app/register/page.tsx:56-68 | navigates to "/feed" with the error untouched, or shows the `AfterRequest` message and stays |
| `Register.RegisterOnce` | src/app/register/page.tsx:37-69 | one submit: the error is empty while the request is in flight; success goes to the feed with no error; every other ending shows an error and does not navigate; the four input fields keep their values |

## Left out

- Rendering, styling and animation. This covers JSX, the landing page, the root layout, ConfirmModal (it only returns null when closed) and framer-motion variants. None of these hold state logic.
- The login page, the auth callback page and the private page. Each is a thin call-and-redirect around a library; the confirmation route shows the same pattern.
- Network and library calls: `fetch`, the Supabase client, the next-auth providers and the router. Their results are inputs and their calls are outputs, as described above. `console.log` in the sign-in callback is dropped; the one in `handleSendMessage` is returned as a string.
- The 3000 ms timers that clear the notifications in the feed and in Layout. They are about scheduling and time, so a notification stays set once shown.
- React effect ordering, batching, async interleaving and unmounting during a request. Each handler is one atomic step.
- `AppContext.AppProvider.Mount`: the default theme and language are briefly written to storage by the first effect run, before the restored values re-render. Only the settled result is modelled.
- DOM side effects other than the `dark` class and `lang`. This covers the body `overflow` style set by the composer.
- The profile page's mock posts and reposts. Its mount effect just loads fixed lists for display.
- The communities page's translation table. It is the same lookup pattern as the messages page's.
- `Feed.FeedPage.CreatePost`: the `if (!user) return` guard is not modelled. The `user` state is always an object and is never set, so the guard can never fire; `user` is a `const` of the class.
- `Feed.FeedPage.Like`, `Feed.FeedPage.Retweet`: counts are unbounded integers. JavaScript numbers are doubles, which differ only beyond 2^53.
- `Register.RegisterPage.Submit`: the browser's own form validation is not modelled. The inputs are `required` and the email field has `type="email"`, so the browser refuses a submit with an empty field or a malformed email before the handler runs. The model's submit accepts any field values.
- `Messages.Translations`: only string property names are modelled. The inherited names are the twelve standard `Object.prototype` members; properties added to the prototype at run time are not.
- `PostModal.Remaining`: lengths count Unicode scalar values. JavaScript's `length` counts UTF-16 code units, so a character outside the Basic Multilingual Plane counts once here and twice in the browser.
- `UseAuth.Settled`: an authenticated body with no `user` field sets `user` to `undefined` in the source. The model uses "no user" for it; both are falsy to the gate.
- `Register.AfterRequest`: `message` is modelled as an optional string. A truthy `message` that is not a string, and a `null` body on an error response, are not modelled.
- The event handlers' `preventDefault` calls. They have no effect on state.
