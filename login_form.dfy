/** The login form: a password step, then, when the server asks for it, a
    second step that takes a TOTP code or a recovery code. The remembered
    email lives in the browser's local storage, modelled as a map. */
module LoginForm {
  import opened Wrappers

  const RememberedEmailKey: string := "remembered-email"
  const InvalidTwoFactorMessage: string := "Invalid two-factor code. Please try again."
  const InvalidCredentialsMessage: string := "Invalid email or password"

  datatype CodeKind = TotpCode | RecoveryCode

  /** Recovery codes contain a dash or are longer than six characters; every
      other code is taken for a TOTP code. */
  function ClassifyCode(code: string): (r: CodeKind)
    ensures r == TotpCode ==> |code| <= 6 && forall i :: 0 <= i < |code| ==> code[i] != '-'
    ensures r == RecoveryCode ==> |code| > 6 || exists i :: 0 <= i < |code| && code[i] == '-'
  {
    if '-' in code || |code| > 6 then RecoveryCode else TotpCode
  }

  /** A six-digit code goes out as a TOTP code. */
  lemma SixDigitsAreTotp(code: string)
    requires |code| == 6 && forall i :: 0 <= i < 6 ==> '0' <= code[i] <= '9'
    ensures ClassifyCode(code) == TotpCode
  {
    assert '-' !in code by {
      forall i | 0 <= i < |code| ensures code[i] != '-' { }
    }
  }

  /** A code in the XXXXX-XXXXX recovery format goes out as a recovery code. */
  lemma DashedCodesAreRecovery(code: string)
    requires |code| == 11 && code[5] == '-'
    ensures ClassifyCode(code) == RecoveryCode
  {
  }

  /** The body of `POST /api/auth/login` (sent with `useCookies=true`). */
  datatype LoginRequest = LoginRequest(
    email: string,
    password: string,
    twoFactorCode: Option<string>,
    twoFactorRecoveryCode: Option<string>)

  /** The request `handleSubmit` builds: email and password always, and the
      code, classified, only in the second step with a non-empty code. */
  function BuildLoginRequest(email: string, password: string, requiresTwoFactor: bool, code: string): (r: LoginRequest)
    ensures r.email == email && r.password == password
    ensures !(requiresTwoFactor && code != "") ==> r.twoFactorCode.None? && r.twoFactorRecoveryCode.None?
    ensures requiresTwoFactor && code != "" ==> r.twoFactorCode.Some? != r.twoFactorRecoveryCode.Some?
    ensures r.twoFactorRecoveryCode.Some? <==> requiresTwoFactor && code != "" && ('-' in code || |code| > 6)
    ensures r.twoFactorCode.Some? ==> r.twoFactorCode.value == code
    ensures r.twoFactorRecoveryCode.Some? ==> r.twoFactorRecoveryCode.value == code
  {
    if requiresTwoFactor && code != "" then
      match ClassifyCode(code)
      case RecoveryCode => LoginRequest(email, password, None, Some(code))
      case TotpCode => LoginRequest(email, password, Some(code), None)
    else LoginRequest(email, password, None, None)
  }

  /** How the login call ended: success, or a failure carrying the error
      body's `detail` when it had one. */
  datatype LoginOutcome = LoginSucceeded | LoginFailed(detail: Option<string>)

  datatype FailureReaction = OpenLockoutDialog | AskForCode | ShowError(message: string)

  /** The catch branch of `handleSubmit`. */
  function ReactToFailure(detail: Option<string>, requiresTwoFactor: bool): (r: FailureReaction)
    ensures r == OpenLockoutDialog <==> detail == Some("LockedOut")
    ensures r == AskForCode <==> detail == Some("RequiresTwoFactor")
    ensures r.ShowError? ==> r.message == (if requiresTwoFactor then InvalidTwoFactorMessage else InvalidCredentialsMessage)
  {
    if detail == Some("LockedOut") then OpenLockoutDialog
    else if detail == Some("RequiresTwoFactor") then AskForCode
    else if requiresTwoFactor then ShowError(InvalidTwoFactorMessage)
    else ShowError(InvalidCredentialsMessage)
  }

  /** The storage after submit: the email saved under the key when remember
      me is set, the key removed otherwise. */
  function RememberEmail(storage: map<string, string>, rememberMe: bool, email: string): (r: map<string, string>)
    ensures rememberMe ==> RememberedEmailKey in r && r[RememberedEmailKey] == email
    ensures !rememberMe ==> RememberedEmailKey !in r
    ensures forall k :: k != RememberedEmailKey ==> (k in r <==> k in storage) && (k in r ==> r[k] == storage[k])
  {
    if rememberMe then storage[RememberedEmailKey := email] else storage - {RememberedEmailKey}
  }

  /** The mount effect: a stored, non-empty remembered email pre-fills the
      email field and ticks remember me; otherwise the defaults stay. */
  function InitialEmail(storage: map<string, string>): (r: (string, bool))
    ensures r.1 <==> RememberedEmailKey in storage && storage[RememberedEmailKey] != ""
    ensures r.1 ==> r.0 == storage[RememberedEmailKey]
    ensures !r.1 ==> r.0 == ""
  {
    if RememberedEmailKey in storage && storage[RememberedEmailKey] != "" then (storage[RememberedEmailKey], true)
    else ("", false)
  }

  /** Remembering round-trips through a reload: the next mount pre-fills the
      submitted email with remember me set, unless that email was empty
      (an empty stored string is falsy); without remember me it starts blank. */
  lemma RememberedEmailRoundTrip(storage: map<string, string>, rememberMe: bool, email: string)
    ensures InitialEmail(RememberEmail(storage, rememberMe, email))
         == if rememberMe && email != "" then (email, true) else ("", false)
  {
  }

  class LoginForm {
    var error: Option<string>
    var email: string
    var password: string
    var rememberMe: bool
    var showLockoutDialog: bool
    var requiresTwoFactor: bool
    var twoFactorCode: string
    var storage: map<string, string>

    /** First render followed by the mount effect. */
    constructor Mount(localStorage: map<string, string>)
      ensures (email, rememberMe) == InitialEmail(localStorage)
      ensures error.None? && password == "" && !showLockoutDialog && !requiresTwoFactor && twoFactorCode == ""
      ensures storage == localStorage
    {
      error, password, showLockoutDialog, requiresTwoFactor, twoFactorCode := None, "", false, false, "";
      storage := localStorage;
      email, rememberMe := "", false;
      if RememberedEmailKey in localStorage && localStorage[RememberedEmailKey] != "" {
        email := localStorage[RememberedEmailKey];
        rememberMe := true;
      }
    }

    /** `handleSubmit`, with the outcome of the login call as input. Returns
        the request sent and where the form navigates ("/" on success). */
    method HandleSubmit(outcome: LoginOutcome) returns (request: LoginRequest, navigateTo: Option<string>)
      modifies this
      ensures request == BuildLoginRequest(old(email), old(password), old(requiresTwoFactor), old(twoFactorCode))
      ensures storage == RememberEmail(old(storage), old(rememberMe), old(email))
      ensures email == old(email) && password == old(password) && rememberMe == old(rememberMe)
      ensures outcome.LoginSucceeded? ==>
        && navigateTo == Some("/") && error.None?
        && showLockoutDialog == old(showLockoutDialog) && requiresTwoFactor == old(requiresTwoFactor)
        && twoFactorCode == old(twoFactorCode)
      ensures outcome.LoginFailed? ==>
        var reaction := ReactToFailure(outcome.detail, old(requiresTwoFactor));
        && navigateTo.None?
        && error == (if reaction.ShowError? then Some(reaction.message) else None)
        && showLockoutDialog == (old(showLockoutDialog) || reaction == OpenLockoutDialog)
        && requiresTwoFactor == (old(requiresTwoFactor) || reaction == AskForCode)
        && twoFactorCode == (if reaction == AskForCode then "" else old(twoFactorCode))
    {
      error := None;
      if rememberMe {
        storage := storage[RememberedEmailKey := email];
      } else {
        storage := storage - {RememberedEmailKey};
      }
      request := BuildLoginRequest(email, password, requiresTwoFactor, twoFactorCode);
      match outcome {
        case LoginSucceeded =>
          navigateTo := Some("/");
        case LoginFailed(detail) =>
          navigateTo := None;
          match ReactToFailure(detail, requiresTwoFactor) {
            case OpenLockoutDialog =>
              showLockoutDialog := true;
            case AskForCode =>
              requiresTwoFactor := true;
              twoFactorCode := "";
            case ShowError(message) =>
              error := Some(message);
          }
      }
    }

    /** `handleBackToLogin`: leave the second step, clearing code, password
        and error; the email and remember me stay. */
    method HandleBackToLogin()
      modifies this
      ensures !requiresTwoFactor && twoFactorCode == "" && password == "" && error.None?
      ensures email == old(email) && rememberMe == old(rememberMe)
      ensures showLockoutDialog == old(showLockoutDialog) && storage == old(storage)
    {
      requiresTwoFactor := false;
      twoFactorCode := "";
      password := "";
      error := None;
    }
  }
}
