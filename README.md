# Authentication core of the template application, in Dafny

This project models the hand-written authentication code of a web
application template: an ASP.NET server whose password, registration,
two-factor and token endpoints come from the identity framework, plus a few
endpoints of its own, and a React client that drives them.

Server side (`auth_endpoints.dfy`, `logging_email_sender.dfy`):

- The Google sign-in redirect and callback. There are three outcomes:
  sign-in through an existing (provider, key) binding, linking a new
  binding to the account that already has the email, or creating a
  confirmed account and binding it.
- The picture-claim upsert, forgot-password, the `/me` projection and
  logout.
- The development email sender, which rewrites identity links so they
  point at the frontend.

The user store is explicit: accounts, a unique email index, login bindings
and claim lists. The application and external cookies are part of the
state. A class `AuthServer` holds these as mutable maps, and its handler
methods are proved equal to pure functions over a `ServerState` value.
Lemmas about those functions state what the handlers promise.

Client side (one module per source file):

- The login form's two-step flow: TOTP/recovery-code classification,
  the remembered email and the failure reactions.
- The two-factor settings handlers and the `otpauth://` provisioning URI,
  in the Google Authenticator Key URI format.
- The password rules.
- The routing of registration errors to fields.
- The authentication context and the order of the logout steps.
- The route guard.
- The fetch wrapper's query string, request body and error body.
- The sidebar's open-group set.
- Breadcrumbs, the theme toggle and the profile header.
- The reset-password, confirm-email and forgot-password pages.

Framework and library calls are parameters of the functions that use them:
token generation, base64url, URL and HTML encoding, `Uri` parsing,
`JSON.parse`/`JSON.stringify` and `encodeURIComponent`. So are the framework
decisions made during the callback (record `Framework`) and the outcomes of
network calls (a response, or `None` when the call threw). Nothing about
them is assumed beyond their types.

Some behaviours of the code worth noting:

- A Google principal without an email or name identifier leads to
  `/login?error=no-email`, not to the generic external-login failure.
- The external cookie is cleared only on the two success paths. The three
  error redirects leave it in place (`CallbackRejectsIncompletePrincipal`).
- The picture from Google is upserted in every successful branch
  (`CallbackExistingBinding`, `CallbackLinksByEmail`). In the
  existing-binding branch it goes to the account the email names, which
  need not be the account the binding names, and it is skipped when no
  account has that email.
- Forgot-password answers 200 whether or not the account exists, but the
  mail is sent without any error handling: a sender that throws fails the
  request for a confirmed account only (`ForgotPasswordFailingSenderReveals`).
- When the framework refuses the sign-in although a binding exists (for
  example because of a lockout), the handler falls through to the linking
  branch. `AddLoginAsync` then fails on the existing binding, its result is
  ignored, and the account the email names is signed in anyway
  (`CallbackRefusedSignInStillSignsIn`).
- The login request carries no remember-me flag. Remember-me only controls
  whether the email is kept in local storage, and cookies are always
  requested.
- Logout waits for the `POST /api/auth/logout` to complete before it clears
  the query cache. A network failure of that POST leaves the cache and the
  location unchanged.
- The client is unauthenticated when the user query holds data but its
  last fetch failed, yet that earlier data is still exposed as `user`.
- Emails are matched exactly. The framework's normalisation (case
  folding) of emails is not part of this model.
- The Google challenge endpoint is `/api/auth/login-google`.

## Model

| member | source | states |
|---|---|---|
| AuthEndpoints.FindByEmail | src/Template.Server/AuthEndpoints.cs:84 | finds the account the email index names; in a consistent store it carries that email, and when none is found no account has the email |
| AuthEndpoints.FirstPictureClaim | src/Template.Server/AuthEndpoints.cs:179-180 | returns the first picture claim of the list: it is a picture claim and every claim before its index is not; none exactly when the list holds no picture claim |
| AuthEndpoints.RemoveClaim | src/Template.Server/AuthEndpoints.cs:184 | removing a present claim takes out its first occurrence and keeps the claims before and after it in order; removing an absent claim changes nothing |
| AuthEndpoints.UpdatedPictureClaims | src/Template.Server/AuthEndpoints.cs:173-188 | the upsert on one claim list: the new picture claim ends the list, and the list grows by one exactly when it held no picture claim |
| AuthEndpoints.AddUser | src/Template.Server/AuthEndpoints.cs:84-93 | the created account is what the email index then finds for its email; every other account, the bindings and the claims are unchanged |
| AuthEndpoints.AddLogin | src/Template.Server/AuthEndpoints.cs:106-107 | the key is bound afterwards, to the given user when it was unbound; existing bindings are never replaced, and accounts, email index and claims are unchanged |
| AuthEndpoints.GoogleCallback | src/Template.Server/AuthEndpoints.cs:40-114 | the new state and the redirect target of the callback for every branch; whenever the state changes, the redirect is returnUrl or "/" and the external cookie is cleared; no existing account or binding is ever changed or removed |
| AuthEndpoints.RemoveFirstPicture | src/Template.Server/AuthEndpoints.cs:180-185 | removing the first picture claim lowers the picture count by one and keeps the non-picture claims in order |
| AuthEndpoints.UpdatePictureUpserts | src/Template.Server/AuthEndpoints.cs:173-188 | after the update the picture count is max(count, 1) and the other claims are unchanged; a list with at most one picture ends with exactly one, holding the new value, which is the first picture claim |
| AuthEndpoints.CallbackRejectsIncompletePrincipal | src/Template.Server/AuthEndpoints.cs:49-63 | failed authentication redirects to external-login-failed, and a missing or empty email or key redirects to no-email; neither changes the state |
| AuthEndpoints.CallbackExistingBinding | src/Template.Server/AuthEndpoints.cs:65-82 | with a binding and sign-in allowed, no account or binding is created; the bound user is signed in persistently, the external cookie is cleared, and the redirect goes to returnUrl or "/"; a non-empty picture is upserted (`UpdatedPictureClaims`) into the claims of the account the email names, and every other claim list, or every list when there is no picture or no such account, is unchanged |
| AuthEndpoints.CallbackNewAccount | src/Template.Server/AuthEndpoints.cs:84-112 | with no binding and no account for the email, exactly one account is added, with user name and email set to the email and the email confirmed; the Google binding points to it and it is signed in |
| AuthEndpoints.CallbackCreateFails | src/Template.Server/AuthEndpoints.cs:93-97 | a failed creation redirects to create-failed with the state unchanged: no binding and no sign-in |
| AuthEndpoints.CallbackLinksByEmail | src/Template.Server/AuthEndpoints.cs:84-112 | with no binding but an account for the email, no account is created and the binding (Google, key) is added to that account, which is signed in; a non-empty picture is upserted into that account's claims and every other claim list is unchanged |
| AuthEndpoints.CallbackRefusedSignInStillSignsIn | src/Template.Server/AuthEndpoints.cs:65-112 | when sign-in through an existing binding is refused, the bindings stay unchanged (the ignored AddLogin failure) and the account the email names is still signed in |
| AuthEndpoints.CallbackOutcomes | src/Template.Server/AuthEndpoints.cs:40-114 | every callback either redirects to one of the three error pages with the state untouched, or signs in an existing account persistently, clears the external cookie and redirects to returnUrl or "/"; the store stays consistent |
| AuthEndpoints.CallbackPreservesValid | src/Template.Server/AuthEndpoints.cs:40-114 | the callback keeps the store consistent: ids, email index, bindings and claim owners |
| AuthEndpoints.Me | src/Template.Server/AuthEndpoints.cs:144-170 | 401 unless the session names an existing account; otherwise that account's email (or "" when it has none), its confirmed flag, and a picture value that is missing exactly when no picture claim exists and otherwise is the value of the first picture claim in the list |
| AuthEndpoints.NewAccountSeesItselfInMe | src/Template.Server/AuthEndpoints.cs:144-166 | right after a first-time Google callback, `/me` reports the Google email, confirmed, and the Google picture when one came |
| AuthEndpoints.Logout | src/Template.Server/AuthEndpoints.cs:20-27 | logout leaves the store untouched, and afterwards `/me` answers 401 |
| AuthEndpoints.ForgotPassword | src/Template.Server/AuthEndpoints.cs:116-141 | a mail is handed to the sender exactly when the account exists with a confirmed email, with link scheme://host/api/auth/resetPassword?email=urlencode(email)&code=base64url(utf8(token)); the status is 200 unless that send throws, which fails the request with 500 |
| AuthEndpoints.ForgotPasswordRevealsNothing | src/Template.Server/AuthEndpoints.cs:126-139 | while the sender completes, the status is 200 for every store and every email |
| AuthEndpoints.ForgotPasswordFailingSenderReveals | src/Template.Server/AuthEndpoints.cs:126-139 | with a throwing sender, an email with a confirmed account gets 500 while an unknown email gets 200 |
| AuthEndpoints.LoginGoogle | src/Template.Server/AuthEndpoints.cs:29-38 | challenges the Google scheme and returns to the callback with the escaped returnUrl, or "/" when none is given |
| AuthEndpoints.AuthServer.CreateAsync | src/Template.Server/AuthEndpoints.cs:93 | the account is added exactly when the framework accepts it and its id is new |
| AuthEndpoints.AuthServer.RemoveClaimAsync | src/Template.Server/AuthEndpoints.cs:184 | only this user's claim list changes, losing the given claim |
| AuthEndpoints.AuthServer.AddClaimAsync | src/Template.Server/AuthEndpoints.cs:187 | only this user's claim list changes, gaining the claim at its end |
| AuthEndpoints.AuthServer.UpdatePictureClaim | src/Template.Server/AuthEndpoints.cs:173-188 | the remove-then-add steps leave the store equal to the upsert function `WithPicture`, about which `UpdatePictureUpserts` is proved |
| AuthEndpoints.AuthServer.AddLoginAsync | src/Template.Server/AuthEndpoints.cs:106-107 | adds the binding and succeeds exactly when the binding did not exist yet; otherwise nothing changes |
| AuthEndpoints.AuthServer.GoogleCallbackAsync | src/Template.Server/AuthEndpoints.cs:40-114 | the step-by-step handler ends in the state and redirect given by `GoogleCallback`, so every callback lemma above holds for it, and it keeps the store consistent |
| AuthEndpoints.AuthServer.LogoutAsync | src/Template.Server/AuthEndpoints.cs:20-27 | both cookies are cleared, the store is unchanged and stays consistent, and the status is 200 |
| LoggingEmailSender.FrontendUrl | src/Template.Server/Services/LoggingEmailSender.cs:10 | the configured frontend URL, or http://localhost:5173 when the key is absent |
| LoggingEmailSender.RewriteLink | src/Template.Server/Services/LoggingEmailSender.cs:12-30 | throws exactly when the HTML-decoded link does not parse; otherwise logs, for the given address, frontendUrl + route + that link's query |
| LoggingEmailSender.SendConfirmationLink | src/Template.Server/Services/LoggingEmailSender.cs:12-20 | throws exactly when the HTML-decoded link does not parse as a URI; otherwise it logs frontendUrl + "/confirm-email" + that URI's query |
| LoggingEmailSender.SendPasswordResetLink | src/Template.Server/Services/LoggingEmailSender.cs:22-30 | throws exactly when the HTML-decoded link does not parse as a URI; otherwise it logs frontendUrl + "/reset-password" + that URI's query |
| LoggingEmailSender.SendPasswordResetCode | src/Template.Server/Services/LoggingEmailSender.cs:32-36 | logs the code unchanged, with the address |
| LoggingEmailSender.OnlyQueryCarriesOver | src/Template.Server/Services/LoggingEmailSender.cs:14-26 | links with the same decoded query give the same rewritten link: scheme, host and path are discarded |
| LoggingEmailSender.LinksDifferOnlyInRoute | src/Template.Server/Services/LoggingEmailSender.cs:16-26 | both rewritten links start with the frontend URL and end with the original query |
| LoginForm.BuildLoginRequest | src/frontend/src/components/login-form.tsx:75-92 | email and password are always sent; unless in 2FA mode with a non-empty code neither code field is set; otherwise exactly one is set, the recovery field exactly for codes with '-' or longer than 6 |
| LoginForm.ClassifyCode | src/frontend/src/components/login-form.tsx:87-91 | a code treated as TOTP has at most six characters and no dash; a code treated as recovery code has a dash or more than six characters |
| LoginForm.SixDigitsAreTotp | src/frontend/src/components/login-form.tsx:84-91 | a six-digit code is sent as a TOTP code |
| LoginForm.DashedCodesAreRecovery | src/frontend/src/components/login-form.tsx:85-88 | a code in the XXXXX-XXXXX format is sent as a recovery code |
| LoginForm.ReactToFailure | src/frontend/src/components/login-form.tsx:103-116 | LockedOut opens the lockout dialog and RequiresTwoFactor asks for a code (each exactly for that detail); any other failure shows the 2FA message in 2FA mode and "Invalid email or password" otherwise |
| LoginForm.RememberEmail | src/frontend/src/components/login-form.tsx:68-73 | with remember-me the key holds the email, and without it the key is gone; other keys are untouched |
| LoginForm.InitialEmail | src/frontend/src/components/login-form.tsx:55-62 | a stored non-empty email pre-fills the field and sets remember-me; otherwise the form starts blank |
| LoginForm.RememberedEmailRoundTrip | src/frontend/src/components/login-form.tsx:56-73 | the next mount pre-fills exactly the email submitted with remember-me, unless that email was empty |
| LoginForm.LoginForm.Mount | src/frontend/src/components/login-form.tsx:45-62 | the initial state, with the email and remember-me taken from storage |
| LoginForm.LoginForm.HandleSubmit | src/frontend/src/components/login-form.tsx:64-117 | clears the error, stores or removes the remembered email and sends `BuildLoginRequest`; success navigates to "/", and a failure applies `ReactToFailure` |
| LoginForm.LoginForm.HandleBackToLogin | src/frontend/src/components/login-form.tsx:124-129 | leaves 2FA mode and clears the code, password and error; the email and remember-me are kept |
| UserSettings.TotpUri | src/frontend/src/pages/user-settings.tsx:121-125 | "" exactly when the shared key or the email is missing or empty |
| UserSettings.TotpUriShape | src/frontend/src/pages/user-settings.tsx:123-124 | otherwise it is otpauth://totp/issuer:email?secret=key&issuer=issuer&digits=6, and the secret has no white space |
| UserSettings.TotpSecretIgnoresGrouping | src/frontend/src/pages/user-settings.tsx:123 | a key displayed in space-separated groups yields the same secret as the ungrouped key |
| UserSettings.TwoFactorSettings.GetTotpUri | src/frontend/src/pages/user-settings.tsx:121-125 | "" before the status is fetched, and exactly when the fetched shared key or the email is missing or empty |
| UserSettings.TwoFactorSettings.constructor | src/frontend/src/pages/user-settings.tsx:23-32 | initial state: no data, loading, no messages, panels closed |
| UserSettings.TwoFactorSettings.FetchTwoFactorStatus | src/frontend/src/pages/user-settings.tsx:42-52 | posts the status query, stores the response or sets the fetch error, and ends loading either way |
| UserSettings.TwoFactorSettings.HandleEnable2FA | src/frontend/src/pages/user-settings.tsx:54-78 | sends the code and clears it on success and failure; the success message, recovery codes and closed setup appear only when the response reports 2FA enabled |
| UserSettings.TwoFactorSettings.HandleDisable2FA | src/frontend/src/pages/user-settings.tsx:86-103 | sends forget-machine, then reset-shared-key only if the first succeeded; stores the second response and hides the recovery codes |
| UserSettings.TwoFactorSettings.HandleRegenerateRecoveryCodes | src/frontend/src/pages/user-settings.tsx:105-119 | sends reset-recovery-codes; on success it stores the response and shows the new codes, and on failure it sets the error |
| Text.StripWhitespace | src/frontend/src/pages/user-settings.tsx:123 | the result has no white space, is no longer than the input, equals an input that has none, and is empty for a single white-space character |
| PasswordRequirements.Matches | src/frontend/src/components/password-requirements.tsx:18-24 | a one-class regular-expression test holds exactly when some character is in the class |
| PasswordRequirements.Test | src/frontend/src/components/password-requirements.tsx:9-26 | each rule's test; the empty password meets none of them |
| PasswordRequirements.RulesMeaning | src/frontend/src/components/password-requirements.tsx:9-26 | length holds iff at least 6 characters; uppercase iff some A-Z; digit iff some 0-9; special iff some character outside [a-zA-Z0-9] |
| PasswordRequirements.RulesSurviveAppending | src/frontend/src/components/password-requirements.tsx:13-24 | a met rule stays met when characters are appended |
| PasswordRequirements.Render | src/frontend/src/components/password-requirements.tsx:28-50 | exactly four rows in the order length, uppercase, digit, special; each is marked met iff its test passes |
| Text.ToLower | src/frontend/src/components/signup-form.tsx:47 | maps each character to its lower-case form, keeping the length |
| SignupForm.MatchingKeys | src/frontend/src/components/signup-form.tsx:38-51 | the password field takes exactly the keys whose lower-case form contains "password"; the email field takes those containing "email" or "user" |
| SignupForm.SomeIncluded | src/frontend/src/components/signup-form.tsx:46-48 | holds exactly when the lower-cased key contains one of the patterns |
| SignupForm.KeyMatches | src/frontend/src/components/signup-form.tsx:39-48 | a key is routed to a field exactly when its lower-case form contains one of that field's patterns |
| SignupForm.GetFieldErrors | src/frontend/src/components/signup-form.tsx:38-51 | the flattened messages of the matching entries; no message when no key matches, or when every matching key has none |
| SignupForm.GetFieldErrorsAppend | src/frontend/src/components/signup-form.tsx:44-50 | the messages of concatenated entries are the concatenated messages, so entry order is kept |
| SignupForm.SingleEntry | src/frontend/src/components/signup-form.tsx:44-50 | an entry gives a field all its messages if its key matches and none otherwise |
| SignupForm.RoutedMessagesComeFromMatchingKeys | src/frontend/src/components/signup-form.tsx:44-50 | every message a field shows comes from an entry whose key matches that field |
| SignupForm.DisplayFailure | src/frontend/src/components/signup-form.tsx:66-75 | an errors record wins; otherwise a non-empty detail; otherwise the generic message |
| SignupForm.SignupForm.HandleSubmit | src/frontend/src/components/signup-form.tsx:53-76 | clears the error and field errors first, posts {email, password}, and sets success only when registration succeeded; failures show `DisplayFailure` |
| AuthProvider.Context | src/frontend/src/app/providers/auth-provider.tsx:13-40 | authenticated iff data is present and there is no error; the user is the data or null; the loading flag is passed through |
| AuthProvider.AuthenticatedHasUser | src/frontend/src/app/providers/auth-provider.tsx:24 | authenticated implies a user; stale data with an error is exposed while unauthenticated |
| AuthProvider.LogoutEffects | src/frontend/src/app/providers/auth-provider.tsx:26-33 | the POST always comes first; the cache clear and the navigation to /login happen exactly when the POST resolves |
| AuthProvider.LogoutOrder | src/frontend/src/app/providers/auth-provider.tsx:26-33 | the POST precedes the cache clear, which precedes the navigation |
| AuthProvider.AuthController.Logout | src/frontend/src/app/providers/auth-provider.tsx:26-33 | appends the steps of `LogoutEffects`; when the POST resolves, the cache ends up empty and the location is /login |
| ProtectedRoute.Guard | src/frontend/src/components/protected-route.tsx:8-20 | loading shows the loading view whatever the auth flag; otherwise unauthenticated users are redirected to /login with replace, and authenticated ones get the outlet |
| ProtectedRoute.GuardOverQuery | src/frontend/src/components/protected-route.tsx:8-20 | under the provider, the outlet renders exactly when the query is settled with data and no error |
| Fetcher.FilterParams | src/frontend/src/api/fetcher.ts:15-19 | no longer than the input, and no undefined value remains |
| Fetcher.FilterKeepsDefined | src/frontend/src/api/fetcher.ts:15-19 | an entry is kept iff it is an input entry with a defined value |
| Fetcher.FilterAppend | src/frontend/src/api/fetcher.ts:15-19 | filtering keeps the entries' relative order |
| Fetcher.ParamString | src/frontend/src/api/fetcher.ts:21-23 | a boolean parameter becomes "true" exactly when it is true |
| Fetcher.Serialize | src/frontend/src/api/fetcher.ts:21-23 | the query string is empty exactly when there are no entries |
| Fetcher.QuerySuffix | src/frontend/src/api/fetcher.ts:21-23 | "" exactly when there is no params object; otherwise "?" followed by the serialised defined entries |
| Fetcher.AllUndefinedGivesBareQuestionMark | src/frontend/src/api/fetcher.ts:15-23 | a params object whose values are all undefined gives just "?" |
| Fetcher.BuildRequest | src/frontend/src/api/fetcher.ts:25-33 | the URL is url followed by the suffix; a body is sent exactly when data is truthy, and it is the stringified data |
| Fetcher.HandleResponse | src/frontend/src/api/fetcher.ts:35-52 | a non-OK response always rejects, with the parsed body or {detail: text}; an OK empty body resolves to undefined; an OK body resolves to the parsed value, or rejects when it does not parse |
| Fetcher.CustomFetch | src/frontend/src/api/fetcher.ts:1-53 | issues `BuildRequest`; a non-OK response rejects with the parsed body, or with an object whose detail is the text when it does not parse; an OK empty body resolves to undefined, an OK body that parses resolves to the parsed value, and one that does not rejects with a syntax error |
| NavMain.TitleSet.Copy | src/frontend/src/components/nav-main.tsx:41 | the copy has the same members |
| NavMain.Toggled | src/frontend/src/components/nav-main.tsx:39-48 | the toggled title changes membership and every other title keeps its membership |
| NavMain.ToggleTwice | src/frontend/src/components/nav-main.tsx:42-46 | toggling the same title twice restores the set |
| NavMain.TogglesCommute | src/frontend/src/components/nav-main.tsx:39-48 | toggles of two titles commute |
| NavMain.ToggleItem | src/frontend/src/components/nav-main.tsx:39-48 | returns a fresh set equal to `Toggled(prev, title)` and leaves the previous set as it was |
| NavMain.OpenFlags | src/frontend/src/components/nav-main.tsx:55-60 | an item is open iff its title is in the open set |
| NavMain.ToggleFlipsOnlyThatGroup | src/frontend/src/components/nav-main.tsx:55-60 | clicking a group flips it, and groups with other titles keep their state |
| Breadcrumbs.Trail | src/frontend/src/hooks/use-breadcrumbs.ts:15-25 | the trail is never longer than the matches |
| Breadcrumbs.HasBreadcrumb | src/frontend/src/hooks/use-breadcrumbs.ts:16-21 | the filter: a truthy handle whose breadcrumb is a string, which only an object handle can have |
| Breadcrumbs.ToCrumb | src/frontend/src/hooks/use-breadcrumbs.ts:22-25 | the crumb of a match: its pathname and its breadcrumb text |
| Breadcrumbs.TrailAppend | src/frontend/src/hooks/use-breadcrumbs.ts:15-25 | the trail follows match order |
| Breadcrumbs.QualifyingMatchesAppear | src/frontend/src/hooks/use-breadcrumbs.ts:16-25 | every match with a truthy handle whose breadcrumb is a string contributes (its pathname, its breadcrumb) |
| Breadcrumbs.CrumbsComeFromQualifyingMatches | src/frontend/src/hooks/use-breadcrumbs.ts:15-25 | every crumb is the path and breadcrumb of a qualifying match |
| Breadcrumbs.SkippedMatchAddsNothing | src/frontend/src/hooks/use-breadcrumbs.ts:17-20 | a match whose breadcrumb is missing or not a string adds nothing, wherever it sits |
| ThemeToggle.EffectiveSize | src/frontend/src/components/theme-toggle.tsx:28 | an omitted size becomes 'icon'; a given size, or an explicit null, is kept |
| ThemeToggle.EffectiveVariant | src/frontend/src/components/theme-toggle.tsx:27 | an omitted variant becomes 'ghost'; anything else is kept |
| ThemeToggle.IconSize | src/frontend/src/components/theme-toggle.tsx:42 | a given size looks up the size map, and a null or omitted size gives 'size-5' |
| ThemeToggle.IsDark | src/frontend/src/components/theme-toggle.tsx:33-36 | light and dark decide by themselves; the system theme is dark exactly when the system prefers dark |
| ThemeToggle.ToggleTarget | src/frontend/src/components/theme-toggle.tsx:38-40 | a click never sets 'system'; it sets 'light' exactly when the current rendering is dark |
| ThemeToggle.ToggleFlipsDarkness | src/frontend/src/components/theme-toggle.tsx:33-40 | a click flips the rendered darkness for any system preference, two clicks restore it, and 'light' is never dark |
| ThemeToggle.AriaLabel | src/frontend/src/components/theme-toggle.tsx:50 | the label is 'Switch to light theme' iff the rendering is dark, that is, iff a click sets 'light' |
| Text.BeforeFirst | src/frontend/src/components/user-settings/profile-header-card.tsx:21 | a prefix without the separator that stops at the first separator, or the whole string when there is none |
| ProfileHeaderCard.Initials | src/frontend/src/components/user-settings/profile-header-card.tsx:20 | "??" for a missing or empty email; otherwise the first min(2, length) characters, upper-cased |
| ProfileHeaderCard.InitialsAreUpperCase | src/frontend/src/components/user-settings/profile-header-card.tsx:20 | initials of an email have one or two characters and no lower-case ASCII letter |
| ProfileHeaderCard.DisplayName | src/frontend/src/components/user-settings/profile-header-card.tsx:21 | "User" without an email; otherwise the prefix of the email before its first '@', or the whole email when it has none |
| ProfileHeaderCard.DisplayNameOfAddress | src/frontend/src/components/user-settings/profile-header-card.tsx:21 | the name of local@domain is local, and an empty email gives an empty name |
| ProfileHeaderCard.SecurityBadge | src/frontend/src/components/user-settings/profile-header-card.tsx:61-80 | a badge appears exactly when the flag is given; it reads "2FA Enabled" iff the flag is true |
| ProfileHeaderCard.Render | src/frontend/src/components/user-settings/profile-header-card.tsx:13-80 | the edit button appears iff a handler is given; the join date defaults to 'March 2023'; missing picture and email become "" for the avatar |
| ResetPassword.Render | src/frontend/src/pages/reset-password.tsx:47-125 | a missing email or code always shows the invalid-link card; otherwise the success card appears iff the status is success |
| ResetPassword.ResetPasswordPage.constructor | src/frontend/src/pages/reset-password.tsx:17-26 | absent query parameters read as ""; the status starts at form |
| ResetPassword.ResetPasswordPage.HandleSubmit | src/frontend/src/pages/reset-password.tsx:28-45 | clears the error first; a missing email or code sets status error without a request; otherwise it sends the request, success sets status success, and failure sets the expired-link error and keeps the status |
| ResetPassword.ValidPageViews | src/frontend/src/pages/reset-password.tsx:28-66 | the error status never shows as such: it arises only with a missing parameter, which shows the invalid-link card |
| ConfirmEmail.Render | src/frontend/src/pages/confirm-email.tsx:34-62 | a description and a login link appear exactly in the success and error states |
| ConfirmEmail.TitlesIdentifyStatus | src/frontend/src/pages/confirm-email.tsx:37-41 | each status has its own title |
| ConfirmEmail.ConfirmEmailPage.constructor | src/frontend/src/pages/confirm-email.tsx:16-18 | the status starts as loading |
| ConfirmEmail.ConfirmEmailPage.RunEffect | src/frontend/src/pages/confirm-email.tsx:20-32 | a missing or empty user id or code sets error without a call; otherwise the call is made, and its success or failure sets success or error |
| ForgotPassword.Render | src/frontend/src/pages/forgot-password.tsx:34-92 | the check-your-email card shows iff the form was submitted |
| ForgotPassword.ForgotPasswordPage.constructor | src/frontend/src/pages/forgot-password.tsx:17 | the page starts unsubmitted |
| ForgotPassword.ForgotPasswordPage.HandleSubmit | src/frontend/src/pages/forgot-password.tsx:20-32 | posts the email and marks the page submitted whether or not the request succeeded |
| ForgotPassword.SubmitOutcomeIsInvisible | src/frontend/src/pages/forgot-password.tsx:20-51 | a page whose request failed and one whose request succeeded show the same view |

## Left out

- Everything the identity framework's `MapIdentityApi` provides is outside the model: password login, registration, lockout, TOTP verification, recovery-code consumption, and confirmation and reset token checks. It is framework code, and its decisions enter the model only as inputs.
- Token generation, cookie and session mechanics, `WebEncoders`, `WebUtility`, `Uri`, `encodeURIComponent`, `URLSearchParams` encoding and `JSON.parse`/`JSON.stringify` are function parameters. Their behaviour is library code that the model does not restate.
- Logging in the email sender is I/O. Only the logged address and text are modelled.
- The network calls themselves, React Query caching and invalidation, `setTimeout` delays, cancellation and out-of-order responses are left out. They are I/O and timing. Each handler is modelled from its start to the settlement of its calls.
- Hosting, dependency injection and database wiring are left out. They hold no logic.
- The store is consistent by assumption where a lemma says so (`ValidStore`). Concurrent requests on the same account are not modelled.
- AuthEndpoints.RemoveClaim: removes the first equal claim. The database-backed store removes every equal claim row, which can differ only when a user holds duplicate picture claims.
- AuthEndpoints.FindByEmail: emails are compared exactly. The framework's case-insensitive normalisation is not modelled.
- Text.ToLower: only ASCII letters are case-mapped. JavaScript's full Unicode case mapping is not modelled. The same holds for `Text.ToUpper` in `ProfileHeaderCard.Initials`, where a character such as 'ß' would change the length.
- PasswordRequirements.Test: lengths count characters, not UTF-16 code units, so a password with characters outside the Basic Multilingual Plane measures shorter than JavaScript measures it.
- LoginForm.ClassifyCode: the same holds for the `length > 6` test on the two-factor code, which counts characters rather than UTF-16 code units.
- AuthEndpoints.ClaimsOf: a user's claims come back in insertion order, and `AuthEndpoints.FirstPictureClaim`, `AuthEndpoints.Me` and the picture upsert pick the first picture claim in that order. The database store's `GetClaimsAsync` query has no ordering, so for a user with several picture claims the one the source picks is up to the database.
- UserSettings.TwoFactorSettings.HandleEnable2FA: the automatic submission 100 ms after the last code digit is a timer, and it is not modelled.
- The Google sign-in button of the login form only builds the challenge URL, whose server side is `AuthEndpoints.LoginGoogle`. It is not modelled separately.
- Js.JsValue: numbers are integers. Floating point and NaN are not modelled.
